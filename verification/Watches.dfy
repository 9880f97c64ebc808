/** The leased scheduler of travel watches (travelbot/postgres-watch-repository.ts). */
module Watches {
  import opened Common

  const LEASE_MS: int := 60_000

  datatype WatchStatus =
    | AWAITING_LIVENESS | ACTIVE | CHECKING | MATCHED | EXECUTING | COMPLETED | EXPIRED | CANCELLED | FAILED

  datatype CheckOutcome = MATCH_FOUND | OVER_BUDGET | NO_INVENTORY | PURCHASED | ERROR

  datatype Watch = Watch(
    status: WatchStatus,
    nextCheckAt: Option<Instant>,
    lastCheckedAt: Option<Instant>,
    leaseExpiresAt: Option<Instant>,
    expiresAt: Instant,
    attempts: nat,
    failures: nat,
    lastOutcome: Option<CheckOutcome>,
    matchedOffer: Option<Id>,
    receiptId: Option<Id>,
    version: nat,
    createdAt: Instant)

  datatype Check = Check(watchId: Id, attempt: nat, outcome: CheckOutcome)

  /** `checks` is unique by watch and attempt: inserting a second row for a pair fails the transaction. */
  datatype Db = Db(watches: map<Id, Watch>, checks: seq<Check>)

  datatype WatchError = NotFound | Refused | DuplicateCheck

  predicate Inserted(checks: seq<Check>, watchId: Id, attempt: nat) {
    exists i :: 0 <= i < |checks| && checks[i].watchId == watchId && checks[i].attempt == attempt
  }

  // ---------- Transactions ----------

  /** A watch as the service creates it, waiting for liveness. */
  function NewWatch(expiresAt: Instant, now: Instant): Watch {
    Watch(AWAITING_LIVENESS, None, None, None, expiresAt, 0, 0, None, None, None, 1, now)
  }

  function Put(db: Db, id: Id, w: Watch): (Result<Watch, WatchError>, Db) {
    (Ok(w), db.(watches := db.watches[id := w]))
  }

  function Activate(db: Db, id: Id, now: Instant): (Result<Watch, WatchError>, Db) {
    if id !in db.watches then (Err(NotFound), db)
    else
      var w := db.watches[id];
      if w.status == ACTIVE then (Ok(w), db)
      else if w.status != AWAITING_LIVENESS then (Err(Refused), db)
      else Put(db, id, w.(status := ACTIVE, nextCheckAt := Some(now), leaseExpiresAt := None, version := w.version + 1))
  }

  function Expedite(db: Db, id: Id, now: Instant): (Result<Watch, WatchError>, Db) {
    if id !in db.watches then (Err(NotFound), db)
    else
      var w := db.watches[id];
      if w.status != ACTIVE || w.expiresAt <= now then (Err(Refused), db)
      else Put(db, id, w.(nextCheckAt := Some(now), leaseExpiresAt := None, version := w.version + 1))
  }

  function ExpireOne(w: Watch, now: Instant): Watch {
    if (w.status == ACTIVE || w.status == CHECKING) && w.expiresAt <= now then
      w.(status := EXPIRED, nextCheckAt := None, leaseExpiresAt := None, version := w.version + 1)
    else w
  }

  function Expire(db: Db, now: Instant): Db {
    db.(watches := map id | id in db.watches :: ExpireOne(db.watches[id], now))
  }

  predicate Due(w: Watch, now: Instant) {
    || (w.status == ACTIVE && w.nextCheckAt.Some? && w.nextCheckAt.value <= now)
    || (w.status == CHECKING && w.leaseExpiresAt.Some? && w.leaseExpiresAt.value <= now)
  }

  /** Ascending `nextCheckAt`, nulls last, then ascending `createdAt`. */
  predicate Before(a: Watch, b: Watch) {
    || (a.nextCheckAt.Some? && b.nextCheckAt.None?)
    || (a.nextCheckAt.Some? && b.nextCheckAt.Some? && a.nextCheckAt.value < b.nextCheckAt.value)
    || (a.nextCheckAt == b.nextCheckAt && a.createdAt < b.createdAt)
  }

  /** `pick` answers the query for the first due row that no other transaction holds. */
  ghost predicate IsDuePick(db: Db, now: Instant, locked: set<Id>, pick: Option<Id>) {
    match pick
    case None => forall id :: id in db.watches && id !in locked ==> !Due(db.watches[id], now)
    case Some(p) =>
      && p in db.watches && p !in locked && Due(db.watches[p], now)
      && forall id :: id in db.watches && id !in locked && Due(db.watches[id], now) ==> !Before(db.watches[id], db.watches[p])
  }

  function Checking(w: Watch, now: Instant): Watch {
    w.(status := CHECKING, nextCheckAt := None, lastCheckedAt := Some(now), leaseExpiresAt := Some(now + LEASE_MS),
       attempts := w.attempts + 1, version := w.version + 1)
  }

  function ClaimDue(db: Db, now: Instant, pick: Option<Id>): (Option<Watch>, Db)
    requires pick.Some? ==> pick.value in db.watches
  {
    var expired := Expire(db, now);
    if pick.None? then (None, expired)
    else
      var w := Checking(expired.watches[pick.value], now);
      (Some(w), expired.(watches := expired.watches[pick.value := w]))
  }

  /** Rewrites a checked watch and inserts the row of its attempt. */
  function Finish(db: Db, id: Id, w: Watch, outcome: CheckOutcome): (Result<Watch, WatchError>, Db)
    requires id in db.watches
  {
    var attempt := db.watches[id].attempts;
    if Inserted(db.checks, id, attempt) then (Err(DuplicateCheck), db)
    else (Ok(w), Db(db.watches[id := w], db.checks + [Check(id, attempt, outcome)]))
  }

  function Reschedule(db: Db, id: Id, outcome: CheckOutcome, nextCheckAt: Instant): (Result<Watch, WatchError>, Db) {
    if id !in db.watches then (Err(NotFound), db)
    else
      var w := db.watches[id];
      if w.status != CHECKING then (Err(Refused), db)
      else
        Finish(db, id, w.(status := ACTIVE, nextCheckAt := Some(nextCheckAt), leaseExpiresAt := None, lastOutcome := Some(outcome),
                          matchedOffer := None, failures := 0, version := w.version + 1), outcome)
  }

  function StagePurchase(db: Db, id: Id, offerId: Id): (Result<Watch, WatchError>, Db) {
    if id !in db.watches then (Err(NotFound), db)
    else
      var w := db.watches[id];
      if w.status != CHECKING then (Err(Refused), db)
      else Put(db, id, w.(lastOutcome := Some(MATCH_FOUND), matchedOffer := Some(offerId), version := w.version + 1))
  }

  function CompletePurchase(db: Db, id: Id, offerId: Id, receiptId: Id): (Result<Watch, WatchError>, Db) {
    if id !in db.watches then (Err(NotFound), db)
    else
      var w := db.watches[id];
      if w.status == COMPLETED && w.matchedOffer == Some(offerId) && w.receiptId == Some(receiptId) then (Ok(w), db)
      else if w.status != CHECKING then (Err(Refused), db)
      else
        Finish(db, id, w.(status := COMPLETED, nextCheckAt := None, leaseExpiresAt := None, lastOutcome := Some(MATCH_FOUND),
                          matchedOffer := Some(offerId), receiptId := Some(receiptId), failures := 0, version := w.version + 1),
               PURCHASED)
  }

  function FailCheck(db: Db, id: Id, stale: bool, nextCheckAt: Option<Instant>): (Result<Watch, WatchError>, Db) {
    if id !in db.watches then (Err(NotFound), db)
    else
      var w := db.watches[id];
      if w.status != CHECKING then (Err(Refused), db)
      else
        Finish(db, id, w.(status := if nextCheckAt.None? then FAILED else ACTIVE, nextCheckAt := nextCheckAt, leaseExpiresAt := None,
                          failures := w.failures + 1, matchedOffer := if stale then None else w.matchedOffer,
                          version := w.version + 1), ERROR)
  }

  function Cancel(db: Db, id: Id): (Result<Watch, WatchError>, Db) {
    if id !in db.watches then (Err(NotFound), db)
    else
      var w := db.watches[id];
      if w.status == CANCELLED then (Ok(w), db)
      else if w.status == COMPLETED || w.status == EXPIRED then (Err(Refused), db)
      else Put(db, id, w.(status := CANCELLED, nextCheckAt := None, leaseExpiresAt := None, version := w.version + 1))
  }

  // ---------- What every transaction keeps ----------

  /** The next-check and lease shape of each status. */
  predicate Shaped(w: Watch) {
    match w.status
    case AWAITING_LIVENESS => w.nextCheckAt.None? && w.leaseExpiresAt.None? && w.attempts == 0 && w.version == 1
    case ACTIVE => w.nextCheckAt.Some? && w.leaseExpiresAt.None?
    case CHECKING =>
      && w.nextCheckAt.None? && w.lastCheckedAt.Some? && w.attempts > 0
      && w.leaseExpiresAt == Some(w.lastCheckedAt.value + LEASE_MS)
    case MATCHED => false
    case EXECUTING => false
    case _ => w.nextCheckAt.None? && w.leaseExpiresAt.None?
  }

  /** A watch being checked has no row for its current attempt yet. */
  ghost predicate ChecksOf(checks: seq<Check>, id: Id, w: Watch) {
    && (forall i :: 0 <= i < |checks| && checks[i].watchId == id ==> 1 <= checks[i].attempt <= w.attempts)
    && (w.status == CHECKING ==> !Inserted(checks, id, w.attempts))
  }

  ghost predicate UniqueChecks(checks: seq<Check>) {
    forall i, j :: 0 <= i < j < |checks| ==>
      checks[i].watchId != checks[j].watchId || checks[i].attempt != checks[j].attempt
  }

  ghost predicate Inv(db: Db) {
    && UniqueChecks(db.checks)
    && (forall i :: 0 <= i < |db.checks| ==> db.checks[i].watchId in db.watches)
    && (forall id :: id in db.watches ==> Shaped(db.watches[id]) && ChecksOf(db.checks, id, db.watches[id]))
  }

  datatype Step =
    | CreateStep(id: Id, expiresAt: Instant, now: Instant)
    | ActivateStep(id: Id, now: Instant)
    | ExpediteStep(id: Id, now: Instant)
    | ClaimStep(now: Instant, locked: set<Id>, pick: Option<Id>)
    | RescheduleStep(id: Id, outcome: CheckOutcome, next: Instant)
    | StageStep(id: Id, offerId: Id)
    | CompleteStep(id: Id, offerId: Id, receiptId: Id)
    | FailStep(id: Id, stale: bool, retryAt: Option<Instant>)
    | CancelStep(id: Id)

  /** One transaction of any worker, stale or not; a claim with a wrong query answer is no step. */
  ghost function Next(db: Db, step: Step): Db {
    match step
    case CreateStep(id, expiresAt, now) =>
      if id in db.watches then db else db.(watches := db.watches[id := NewWatch(expiresAt, now)])
    case ActivateStep(id, now) => Activate(db, id, now).1
    case ExpediteStep(id, now) => Expedite(db, id, now).1
    case ClaimStep(now, locked, pick) => if IsDuePick(Expire(db, now), now, locked, pick) then ClaimDue(db, now, pick).1 else db
    case RescheduleStep(id, outcome, next) => Reschedule(db, id, outcome, next).1
    case StageStep(id, offerId) => StagePurchase(db, id, offerId).1
    case CompleteStep(id, offerId, receiptId) => CompletePurchase(db, id, offerId, receiptId).1
    case FailStep(id, stale, retryAt) => FailCheck(db, id, stale, retryAt).1
    case CancelStep(id) => Cancel(db, id).1
  }

  ghost function Run(db: Db, steps: seq<Step>): Db
    decreases |steps|
  {
    if steps == [] then db else Run(Next(db, steps[0]), steps[1..])
  }

  lemma PutKeeps(db: Db, id: Id, w: Watch)
    requires Inv(db) && id in db.watches && Shaped(w)
    requires w.attempts >= db.watches[id].attempts
    requires w.status == CHECKING ==> w.attempts > db.watches[id].attempts || db.watches[id].status == CHECKING
    ensures Inv(db.(watches := db.watches[id := w]))
  {
    assert ChecksOf(db.checks, id, db.watches[id]);
    var db' := db.(watches := db.watches[id := w]);
    forall other | other in db'.watches ensures Shaped(db'.watches[other]) && ChecksOf(db'.checks, other, db'.watches[other]) {
      assert other != id ==> ChecksOf(db.checks, other, db.watches[other]);
    }
  }

  lemma FinishKeeps(db: Db, id: Id, w: Watch, outcome: CheckOutcome)
    requires Inv(db) && id in db.watches && db.watches[id].status == CHECKING
    requires Shaped(w) && w.status != CHECKING && w.attempts == db.watches[id].attempts
    ensures Finish(db, id, w, outcome).0 == Ok(w) && Inv(Finish(db, id, w, outcome).1)
  {
    assert ChecksOf(db.checks, id, db.watches[id]);
    var db' := Finish(db, id, w, outcome).1;
    forall other | other in db'.watches ensures Shaped(db'.watches[other]) && ChecksOf(db'.checks, other, db'.watches[other]) {
      if other != id { assert ChecksOf(db.checks, other, db.watches[other]); }
    }
  }

  lemma ExpireKeeps(db: Db, now: Instant)
    requires Inv(db)
    ensures Inv(Expire(db, now))
  {
    var db' := Expire(db, now);
    forall id | id in db'.watches ensures Shaped(db'.watches[id]) && ChecksOf(db'.checks, id, db'.watches[id]) {
      assert ChecksOf(db.checks, id, db.watches[id]);
    }
  }

  lemma NewKeeps(db: Db, id: Id, w: Watch)
    requires Inv(db) && id !in db.watches && Shaped(w) && w.status != CHECKING
    ensures Inv(db.(watches := db.watches[id := w]))
  {
    var db' := db.(watches := db.watches[id := w]);
    forall other | other in db'.watches ensures Shaped(db'.watches[other]) && ChecksOf(db'.checks, other, db'.watches[other]) {
      if other != id { assert ChecksOf(db.checks, other, db.watches[other]); }
    }
  }

  lemma ShapeAt(db: Db, id: Id)
    requires Inv(db) && id in db.watches
    ensures Shaped(db.watches[id])
  {
  }

  /** Every transaction keeps the shapes, and none ever inserts a second row for an attempt. */
  lemma NextKeeps(db: Db, step: Step)
    requires Inv(db)
    ensures Inv(Next(db, step))
  {
    hide Inv, Finish;
    match step
    case CreateStep(id, expiresAt, now) => if id !in db.watches { NewKeeps(db, id, NewWatch(expiresAt, now)); }
    case ClaimStep(now, locked, pick) =>
      ExpireKeeps(db, now);
      var expired := Expire(db, now);
      if pick.Some? && IsDuePick(expired, now, locked, pick) {
        ShapeAt(expired, pick.value);
        PutKeeps(expired, pick.value, Checking(expired.watches[pick.value], now));
      }
    case _ =>
      var id := step.id;
      if id in db.watches {
        ShapeAt(db, id);
        FinishingKeeps(db, step);
        RewritingKeeps(db, step);
      }
  }

  lemma FinishingKeeps(db: Db, step: Step)
    requires Inv(db) && (step.RescheduleStep? || step.CompleteStep? || step.FailStep? || step.ActivateStep? || step.ExpediteStep? || step.StageStep? || step.CancelStep?)
    requires step.id in db.watches && Shaped(db.watches[step.id])
    ensures step.RescheduleStep? || step.CompleteStep? || step.FailStep? ==> Inv(Next(db, step))
    ensures step.RescheduleStep? ==> Reschedule(db, step.id, step.outcome, step.next).0 != Err(DuplicateCheck)
    ensures step.CompleteStep? ==> CompletePurchase(db, step.id, step.offerId, step.receiptId).0 != Err(DuplicateCheck)
    ensures step.FailStep? ==> FailCheck(db, step.id, step.stale, step.retryAt).0 != Err(DuplicateCheck)
  {
    hide Inv, Finish;
    var id, w := step.id, db.watches[step.id];
    if w.status == CHECKING {
      match step
      case RescheduleStep(_, outcome, next) =>
        FinishKeeps(db, id, w.(status := ACTIVE, nextCheckAt := Some(next), leaseExpiresAt := None, lastOutcome := Some(outcome),
                               matchedOffer := None, failures := 0, version := w.version + 1), outcome);
      case CompleteStep(_, offerId, receiptId) =>
        FinishKeeps(db, id, w.(status := COMPLETED, nextCheckAt := None, leaseExpiresAt := None, lastOutcome := Some(MATCH_FOUND),
                               matchedOffer := Some(offerId), receiptId := Some(receiptId), failures := 0, version := w.version + 1),
                    PURCHASED);
      case FailStep(_, stale, retryAt) =>
        FinishKeeps(db, id, w.(status := if retryAt.None? then FAILED else ACTIVE, nextCheckAt := retryAt, leaseExpiresAt := None,
                               failures := w.failures + 1, matchedOffer := if stale then None else w.matchedOffer,
                               version := w.version + 1), ERROR);
      case _ =>
    }
  }

  lemma RewritingKeeps(db: Db, step: Step)
    requires Inv(db) && (step.RescheduleStep? || step.CompleteStep? || step.FailStep? || step.ActivateStep? || step.ExpediteStep? || step.StageStep? || step.CancelStep?)
    requires step.id in db.watches && Shaped(db.watches[step.id])
    ensures step.ActivateStep? || step.ExpediteStep? || step.StageStep? || step.CancelStep? ==> Inv(Next(db, step))
  {
    hide Inv, Finish;
    if (step.ActivateStep? || step.ExpediteStep? || step.StageStep? || step.CancelStep?) && Next(db, step) != db {
      PutKeeps(db, step.id, Next(db, step).watches[step.id]);
    }
  }

  const EMPTY := Db(map[], [])

  lemma {:induction false} RunKeeps(db: Db, steps: seq<Step>)
    requires Inv(db)
    ensures Inv(Run(db, steps))
    decreases |steps|
  {
    hide Inv, Next;
    if steps != [] {
      NextKeeps(db, steps[0]);
      RunKeeps(Next(db, steps[0]), steps[1..]);
    }
  }

  /** Over every run of any number of workers, stale ones included: a watch has at most one check row for an
      attempt, and every row keeps the next-check and lease shape of its status. */
  lemma OneCheckPerAttempt(steps: seq<Step>, i: nat, j: nat, id: Id)
    requires i < j < |Run(EMPTY, steps).checks|
    ensures var db := Run(EMPTY, steps);
      && (db.checks[i].watchId != db.checks[j].watchId || db.checks[i].attempt != db.checks[j].attempt)
      && (id in db.watches ==> Shaped(db.watches[id]))
  {
    EmptyInv();
    RunKeeps(EMPTY, steps);
    if id in Run(EMPTY, steps).watches { ShapeAt(Run(EMPTY, steps), id); }
  }

  // ---------- Live and finished watches ----------

  /** A claim hands out only a watch that was due, has not expired, and starts a new attempt for it. */
  lemma ClaimsAreLive(db: Db, now: Instant, locked: set<Id>, id: Id)
    requires Inv(db) && IsDuePick(Expire(db, now), now, locked, Some(id))
    ensures id in db.watches && Due(db.watches[id], now) && now < db.watches[id].expiresAt
    ensures var (r, db') := ClaimDue(db, now, Some(id));
      && r.Some? && r.value == db'.watches[id] && r.value.status == CHECKING && r.value.attempts == db.watches[id].attempts + 1
      && !Inserted(db'.checks, id, r.value.attempts)
  {
    ExpireKeeps(db, now);
    assert ChecksOf(db.checks, id, db.watches[id]);
  }

  ghost predicate FinishedKept(before: Db, after: Db) {
    forall id :: id in before.watches && before.watches[id].status in {COMPLETED, EXPIRED, CANCELLED} ==>
      id in after.watches && after.watches[id] == before.watches[id]
  }

  lemma NextKeepsFinished(db: Db, step: Step)
    ensures FinishedKept(db, Next(db, step))
  {
    hide Inserted;
  }

  /** Completed, expired and cancelled watches never change again. */
  lemma {:induction false} FinishedForever(db: Db, steps: seq<Step>)
    ensures FinishedKept(db, Run(db, steps))
    decreases |steps|
  {
    hide Next;
    if steps != [] {
      NextKeepsFinished(db, steps[0]);
      FinishedForever(Next(db, steps[0]), steps[1..]);
    }
  }

  // ---------- Claims of one watch are a lease apart ----------

  predicate ClaimsWatch(step: Step, id: Id) {
    step.ClaimStep? && step.pick == Some(id)
  }

  /** A step that could end the check of watch `id`. */
  predicate Finishes(step: Step, id: Id) {
    match step
    case RescheduleStep(w, _, _) => w == id
    case CompleteStep(w, _, _) => w == id
    case FailStep(w, _, _) => w == id
    case CancelStep(w) => w == id
    case _ => false
  }

  /** Claimed at `since` or later and not finished: still being checked, or expired. */
  ghost predicate LeasedSince(db: Db, id: Id, since: Instant) {
    && id in db.watches
    && (db.watches[id].status == EXPIRED
        || (db.watches[id].status == CHECKING && db.watches[id].leaseExpiresAt.Some?
            && db.watches[id].leaseExpiresAt.value >= since + LEASE_MS))
  }

  ghost predicate RealClaim(db: Db, step: Step) {
    step.ClaimStep? && IsDuePick(Expire(db, step.now), step.now, step.locked, step.pick)
  }

  lemma LeaseKept(db: Db, step: Step, id: Id, since: Instant)
    requires Inv(db) && LeasedSince(db, id, since) && !Finishes(step, id)
    ensures LeasedSince(Next(db, step), id, since)
    ensures RealClaim(db, step) && ClaimsWatch(step, id) ==> step.now >= since + LEASE_MS
  {
    hide Inv;
    ShapeAt(db, id);
  }

  /** Two claims of a watch with no finishing step between them are at least a lease apart, whatever any
      worker did to it or to other watches in between. */
  lemma {:induction false} ClaimsApart(db: Db, id: Id, since: Instant, steps: seq<Step>, last: Step)
    requires Inv(db) && LeasedSince(db, id, since)
    requires forall i :: 0 <= i < |steps| ==> !Finishes(steps[i], id)
    requires RealClaim(Run(db, steps), last) && ClaimsWatch(last, id)
    ensures last.now >= since + LEASE_MS
    decreases |steps|
  {
    hide Inv, Next, LeasedSince, RealClaim;
    if steps == [] {
      assert !Finishes(last, id);
      LeaseKept(db, last, id, since);
    } else {
      LeaseKept(db, steps[0], id, since);
      NextKeeps(db, steps[0]);
      ClaimsApart(Next(db, steps[0]), id, since, steps[1..], last);
    }
  }

  /** From the start: the earlier claim is the step `first` itself. */
  lemma ClaimsALeaseApart(before: seq<Step>, first: Step, between: seq<Step>, last: Step, id: Id)
    requires RealClaim(Run(EMPTY, before), first) && ClaimsWatch(first, id)
    requires forall i :: 0 <= i < |between| ==> !Finishes(between[i], id)
    requires RealClaim(Run(Next(Run(EMPTY, before), first), between), last) && ClaimsWatch(last, id)
    ensures last.now >= first.now + LEASE_MS
  {
    hide Inv;
    EmptyInv();
    RunKeeps(EMPTY, before);
    var db := Run(EMPTY, before);
    NextKeeps(db, first);
    assert LeasedSince(Next(db, first), id, first.now);
    ClaimsApart(Next(db, first), id, first.now, between, last);
  }

  lemma EmptyInv()
    ensures Inv(EMPTY)
  {
  }

  // ---------- Draining what is due ----------

  ghost function DueSet(db: Db, now: Instant): set<Id> {
    set id | id in db.watches && Due(db.watches[id], now)
  }

  /** `picks` are the answers of repeated `claimDue` calls at one time, up to the one that finds nothing. */
  ghost predicate Drains(db: Db, now: Instant, picks: seq<Id>)
    decreases |picks|
  {
    if picks == [] then IsDuePick(Expire(db, now), now, {}, None)
    else IsDuePick(Expire(db, now), now, {}, Some(picks[0])) && Drains(ClaimDue(db, now, Some(picks[0])).1, now, picks[1..])
  }

  /** A claim takes its own watch out of what is due at that time, and no other. */
  lemma ClaimShrinks(db: Db, now: Instant, pick: Id)
    requires IsDuePick(Expire(db, now), now, {}, Some(pick))
    ensures var db' := ClaimDue(db, now, Some(pick)).1;
      DueSet(Expire(db', now), now) == DueSet(Expire(db, now), now) - {pick}
  {
    var db' := ClaimDue(db, now, Some(pick)).1;
    forall id ensures id in DueSet(Expire(db', now), now) <==> id in DueSet(Expire(db, now), now) - {pick} {
    }
  }

  /** Repeated claims at a fixed time claim every due watch exactly once and then find nothing. */
  lemma {:induction false} DrainsExactly(db: Db, now: Instant, picks: seq<Id>)
    requires Drains(db, now, picks)
    ensures NoDuplicates(picks)
    ensures forall id :: id in picks <==> id in DueSet(Expire(db, now), now)
    decreases |picks|
  {
    hide ClaimDue;
    if picks != [] {
      var db' := ClaimDue(db, now, Some(picks[0])).1;
      ClaimShrinks(db, now, picks[0]);
      DrainsExactly(db', now, picks[1..]);
      forall i, j | 0 <= i < j < |picks| ensures picks[i] != picks[j] {
        assert picks[j] == picks[1..][j - 1];
        if i > 0 { assert picks[i] == picks[1..][i - 1]; }
      }
      assert picks == [picks[0]] + picks[1..];
    }
  }

  /** Some due row comes first, so a claim that finds nothing means that nothing is due. */
  lemma {:induction false} FirstDue(db: Db, now: Instant, among: set<Id>) returns (p: Id)
    requires among != {} && forall id :: id in among ==> id in db.watches
    ensures p in among && forall id :: id in among ==> !Before(db.watches[id], db.watches[p])
    decreases |among|
  {
    p :| p in among;
    if among != {p} {
      var q := FirstDue(db, now, among - {p});
      if Before(db.watches[q], db.watches[p]) {
        p := q;
      } else {
        forall id | id in among ensures !Before(db.watches[id], db.watches[p]) {
          assert id == p || id in among - {p};
        }
      }
    }
  }

  /** And they do end: however many watches are due, that many claims drain them. */
  lemma {:induction false} DrainEnds(db: Db, now: Instant) returns (picks: seq<Id>)
    ensures Drains(db, now, picks) && |picks| == |DueSet(Expire(db, now), now)|
    decreases |DueSet(Expire(db, now), now)|
  {
    var due := DueSet(Expire(db, now), now);
    if due == {} {
      picks := [];
      forall id | id in Expire(db, now).watches ensures !Due(Expire(db, now).watches[id], now) {
        assert id !in due;
      }
    } else {
      var p := FirstDue(Expire(db, now), now, due);
      forall id | id in Expire(db, now).watches && Due(Expire(db, now).watches[id], now)
        ensures !Before(Expire(db, now).watches[id], Expire(db, now).watches[p])
      {
        assert id in due;
      }
      assert IsDuePick(Expire(db, now), now, {}, Some(p));
      ClaimShrinks(db, now, p);
      var rest := DrainEnds(ClaimDue(db, now, Some(p)).1, now);
      picks := [p] + rest;
      assert picks[1..] == rest;
    }
  }
}
