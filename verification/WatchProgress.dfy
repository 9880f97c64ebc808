/** What the scheduler's columns say: who may do what to a watch, which watch a claim takes, and what versions,
    failures and check rows count (travelbot/postgres-watch-repository.ts). */
module WatchProgress {
  import opened Common
  import opened Watches

  // ---------- Who may do what ----------

  /** In a reachable state the status alone (and, for a hurried check, the clock) decides what is allowed; a
      repetition of what was done is answered and changes nothing. */
  lemma AnswersExactly(steps: seq<Step>, id: Id, now: Instant, outcome: CheckOutcome, next: Option<Instant>, stale: bool,
                       offerId: Id, receiptId: Id)
    requires id in Run(EMPTY, steps).watches && next.Some?
    ensures var db := Run(EMPTY, steps);
      var w := db.watches[id];
      && (Activate(db, id, now).0.Ok? <==> w.status in {AWAITING_LIVENESS, ACTIVE})
      && (w.status == ACTIVE ==> Activate(db, id, now) == (Ok(w), db))
      && (Expedite(db, id, now).0.Ok? <==> w.status == ACTIVE && now < w.expiresAt)
      && (StagePurchase(db, id, offerId).0.Ok? <==> w.status == CHECKING)
      && (Reschedule(db, id, outcome, next.value).0.Ok? <==> w.status == CHECKING)
      && (FailCheck(db, id, stale, next).0.Ok? <==> w.status == CHECKING)
      && (Cancel(db, id).0.Ok? <==> w.status !in {COMPLETED, EXPIRED})
      && (w.status == CANCELLED ==> Cancel(db, id) == (Ok(w), db))
      && (CompletePurchase(db, id, offerId, receiptId).0.Ok? <==>
           || w.status == CHECKING
           || (w.status == COMPLETED && w.matchedOffer == Some(offerId) && w.receiptId == Some(receiptId)))
      && (w.status == COMPLETED ==> CompletePurchase(db, id, offerId, receiptId).1 == db)
  {
    hide Run, Inv;
    EmptyInv();
    RunKeeps(EMPTY, steps);
    var db := Run(EMPTY, steps);
    ShapeAt(db, id);
    if db.watches[id].status == CHECKING { NotYetInserted(db, id); }
  }

  lemma NotYetInserted(db: Db, id: Id)
    requires Inv(db) && id in db.watches && db.watches[id].status == CHECKING
    ensures !Inserted(db.checks, id, db.watches[id].attempts)
  {
    assert ChecksOf(db.checks, id, db.watches[id]);
  }

  /** What a granted request leaves of the watch: only what is named here changes. */
  lemma EffectsExactly(db: Db, id: Id, now: Instant, outcome: CheckOutcome, next: Instant, retryAt: Option<Instant>, stale: bool,
                       offerId: Id, receiptId: Id)
    requires id in db.watches
    ensures var w, v := db.watches[id], db.watches[id].version + 1;
      && (w.status == AWAITING_LIVENESS ==>
           Activate(db, id, now).0 == Ok(w.(status := ACTIVE, nextCheckAt := Some(now), leaseExpiresAt := None, version := v)))
      && (w.status == ACTIVE && now < w.expiresAt ==>
           Expedite(db, id, now).0 == Ok(w.(nextCheckAt := Some(now), leaseExpiresAt := None, version := v)))
      && (w.status !in {COMPLETED, EXPIRED, CANCELLED} ==>
           Cancel(db, id).0 == Ok(w.(status := CANCELLED, nextCheckAt := None, leaseExpiresAt := None, version := v)))
      && (w.status == CHECKING ==>
           && StagePurchase(db, id, offerId).0 == Ok(w.(lastOutcome := Some(MATCH_FOUND), matchedOffer := Some(offerId), version := v))
           && (Reschedule(db, id, outcome, next).0.Ok? ==>
                var r := Reschedule(db, id, outcome, next).0.value;
                && r == w.(status := ACTIVE, nextCheckAt := Some(next), leaseExpiresAt := None, lastOutcome := Some(outcome),
                           matchedOffer := None, failures := 0, version := v)
                && Reschedule(db, id, outcome, next).1 == Db(db.watches[id := r], db.checks + [Check(id, w.attempts, outcome)]))
           && (CompletePurchase(db, id, offerId, receiptId).0.Ok? ==>
                var r := CompletePurchase(db, id, offerId, receiptId).0.value;
                && r == w.(status := COMPLETED, nextCheckAt := None, leaseExpiresAt := None, lastOutcome := Some(MATCH_FOUND),
                           matchedOffer := Some(offerId), receiptId := Some(receiptId), failures := 0, version := v)
                && CompletePurchase(db, id, offerId, receiptId).1
                   == Db(db.watches[id := r], db.checks + [Check(id, w.attempts, PURCHASED)]))
           && (FailCheck(db, id, stale, retryAt).0.Ok? ==>
                var r := FailCheck(db, id, stale, retryAt).0.value;
                && r == w.(status := if retryAt.Some? then ACTIVE else FAILED, nextCheckAt := retryAt, leaseExpiresAt := None,
                           failures := w.failures + 1, matchedOffer := if stale then None else w.matchedOffer, version := v)
                && FailCheck(db, id, stale, retryAt).1 == Db(db.watches[id := r], db.checks + [Check(id, w.attempts, ERROR)])))
  {
  }

  // ---------- Which watch a claim takes ----------

  /** Unexpired, and either its next check is reached or the worker that took it a minute ago said nothing. */
  predicate Waits(w: Watch, now: Instant) {
    && now < w.expiresAt
    && ((w.status == ACTIVE && w.nextCheckAt.Some? && w.nextCheckAt.value <= now)
        || (w.status == CHECKING && w.lastCheckedAt.Some? && w.lastCheckedAt.value + 60_000 <= now))
  }

  /** Planned checks first, by their time; then abandoned ones; the oldest watch first among equals. */
  predicate Urgent(w: Watch, other: Watch) {
    match (w.status, other.status)
    case (ACTIVE, ACTIVE) =>
      && w.nextCheckAt.Some? && other.nextCheckAt.Some?
      && (w.nextCheckAt.value < other.nextCheckAt.value
          || (w.nextCheckAt.value == other.nextCheckAt.value && w.createdAt <= other.createdAt))
    case (ACTIVE, _) => true
    case (_, ACTIVE) => false
    case (_, _) => w.createdAt <= other.createdAt
  }

  lemma WaitsExactly(db: Db, id: Id, now: Instant)
    requires Inv(db) && id in db.watches
    ensures id in Expire(db, now).watches
    ensures Due(Expire(db, now).watches[id], now) <==> Waits(db.watches[id], now)
    ensures Waits(db.watches[id], now) ==> Expire(db, now).watches[id] == db.watches[id]
  {
    ShapeAt(db, id);
  }

  lemma UrgentExactly(a: Watch, b: Watch, now: Instant)
    requires Shaped(a) && Shaped(b) && Waits(a, now) && Waits(b, now)
    ensures Urgent(a, b) <==> !Before(b, a)
  {
  }

  function OnceExpired(w: Watch, now: Instant): Watch {
    if w.status !in {ACTIVE, CHECKING} || now < w.expiresAt then w
    else w.(status := EXPIRED, nextCheckAt := None, leaseExpiresAt := None, version := w.version + 1)
  }

  /** In every reachable state a claim finds nothing exactly when no watch waits that nobody holds; and what it
      finds is a waiting watch, as urgent as any, which it takes for a minute and a new attempt. No other watch
      is touched, but that those being watched past their end expire. */
  lemma ClaimsExactly(steps: seq<Step>, now: Instant, locked: set<Id>, pick: Option<Id>)
    requires IsDuePick(Expire(Run(EMPTY, steps), now), now, locked, pick)
    ensures var db := Run(EMPTY, steps);
      var (r, db') := ClaimDue(db, now, pick);
      && (pick == None <==> forall id :: id in db.watches && id !in locked ==> !Waits(db.watches[id], now))
      && (r == None <==> pick == None)
      && db'.checks == db.checks && db'.watches.Keys == db.watches.Keys
      && (forall id :: id in db.watches && Some(id) != pick ==> db'.watches[id] == OnceExpired(db.watches[id], now))
      && (pick.Some? ==>
           && pick.value in db.watches && pick.value !in locked
           && var w := db.watches[pick.value];
           && Waits(w, now)
           && (forall id :: id in db.watches && id !in locked && Waits(db.watches[id], now) ==> Urgent(w, db.watches[id]))
           && r == Some(db'.watches[pick.value])
           && r.value.status == CHECKING && r.value.attempts == w.attempts + 1 && r.value.lastCheckedAt == Some(now)
           && r.value.leaseExpiresAt == Some(now + 60_000) && r.value.expiresAt == w.expiresAt && r.value.failures == w.failures)
  {
    hide Run, Inv, Due, Before;
    EmptyInv();
    RunKeeps(EMPTY, steps);
    var db := Run(EMPTY, steps);
    forall id | id in db.watches
      ensures id in Expire(db, now).watches
      ensures Due(Expire(db, now).watches[id], now) <==> Waits(db.watches[id], now)
      ensures Waits(db.watches[id], now) ==> Expire(db, now).watches[id] == db.watches[id]
    {
      WaitsExactly(db, id, now);
    }
    forall a, b | a in db.watches && b in db.watches && Waits(db.watches[a], now) && Waits(db.watches[b], now)
      ensures Urgent(db.watches[a], db.watches[b]) <==> !Before(db.watches[b], db.watches[a])
    {
      ShapeAt(db, a);
      ShapeAt(db, b);
      UrgentExactly(db.watches[a], db.watches[b], now);
    }
  }

  // ---------- What the columns count ----------

  /** How many transactions of a run rewrite a watch. */
  ghost function Rewrites(db: Db, steps: seq<Step>, id: Id): nat
    decreases |steps|
  {
    if steps == [] then 0
    else
      var db' := Next(db, steps[0]);
      (if id in db.watches && id in db'.watches && db'.watches[id] != db.watches[id] then 1 else 0) + Rewrites(db', steps[1..], id)
  }

  lemma VersionStep(db: Db, step: Step, id: Id)
    requires Inv(db) && id in db.watches
    ensures id in Next(db, step).watches
    ensures var w, w' := db.watches[id], Next(db, step).watches[id];
      && (w' == w || w'.version == w.version + 1)
      && w'.createdAt == w.createdAt && w'.expiresAt == w.expiresAt
  {
    hide Inv;
    ShapeAt(db, id);
    match step
    case ClaimStep(now, locked, pick) => if pick.Some? { WaitsExactly(db, id, now); }
    case _ =>
  }

  /** The version of a watch counts its rewrites, over every run. */
  lemma {:induction false} VersionCounts(db: Db, steps: seq<Step>, id: Id)
    requires Inv(db) && id in db.watches
    ensures id in Run(db, steps).watches
    ensures Run(db, steps).watches[id].version == db.watches[id].version + Rewrites(db, steps, id)
    decreases |steps|
  {
    hide Inv, Next;
    if steps != [] {
      VersionStep(db, steps[0], id);
      NextKeeps(db, steps[0]);
      VersionCounts(Next(db, steps[0]), steps[1..], id);
    }
  }

  /** The check rows of a watch, oldest first. */
  function RowsOf(checks: seq<Check>, id: Id): (r: seq<Check>) {
    if checks == [] then []
    else
      var rest, last := RowsOf(checks[..|checks| - 1], id), checks[|checks| - 1];
      if last.watchId == id then rest + [last] else rest
  }

  /** How many of the last checks failed, one after the other. */
  function ErrorsAtEnd(rows: seq<Check>): nat {
    if rows == [] || rows[|rows| - 1].outcome != ERROR then 0 else 1 + ErrorsAtEnd(rows[..|rows| - 1])
  }

  function LastOutcome(rows: seq<Check>): Option<CheckOutcome> {
    if rows == [] then None else Some(rows[|rows| - 1].outcome)
  }

  /** A watch agrees with its own check rows. */
  ghost predicate Tells(w: Watch, rows: seq<Check>) {
    && w.failures == ErrorsAtEnd(rows)
    && (w.status == COMPLETED <==> LastOutcome(rows) == Some(PURCHASED))
    && (w.status == COMPLETED <==> w.receiptId.Some?)
    && (w.status == COMPLETED ==> w.matchedOffer.Some? && w.lastOutcome == Some(MATCH_FOUND))
    && (w.status == FAILED ==> LastOutcome(rows) == Some(ERROR))
    && (w.status == ACTIVE && LastOutcome(rows).Some? && LastOutcome(rows) != Some(ERROR) ==>
         w.lastOutcome == LastOutcome(rows) && w.matchedOffer == None)
    && (w.matchedOffer.Some? ==> w.lastOutcome == Some(MATCH_FOUND))
    && (w.status == AWAITING_LIVENESS ==> LastOutcome(rows) == None)
  }

  ghost predicate TellsAll(db: Db) {
    forall id :: id in db.watches ==> Tells(db.watches[id], RowsOf(db.checks, id))
  }

  /** A search reports what it found; only a purchase is recorded as one, only a failure as an error. */
  predicate SearchOutcome(step: Step) {
    step.RescheduleStep? ==> step.outcome in {MATCH_FOUND, OVER_BUDGET, NO_INVENTORY}
  }

  lemma RowsAppend(checks: seq<Check>, c: Check, id: Id)
    ensures RowsOf(checks + [c], id) == if c.watchId == id then RowsOf(checks, id) + [c] else RowsOf(checks, id)
  {
    assert (checks + [c])[..|checks|] == checks;
  }

  lemma ErrorsAppend(rows: seq<Check>, c: Check)
    ensures ErrorsAtEnd(rows + [c]) == if c.outcome == ERROR then ErrorsAtEnd(rows) + 1 else 0
    ensures LastOutcome(rows + [c]) == Some(c.outcome)
  {
    assert (rows + [c])[..|rows|] == rows;
  }

  lemma {:induction false} NoRows(checks: seq<Check>, id: Id)
    requires forall i :: 0 <= i < |checks| ==> checks[i].watchId != id
    ensures RowsOf(checks, id) == []
  {
    if checks != [] { NoRows(checks[..|checks| - 1], id); }
  }

  lemma TellsStep(db: Db, step: Step, id: Id)
    requires Inv(db) && SearchOutcome(step) && id in Next(db, step).watches
    requires id in db.watches ==> Tells(db.watches[id], RowsOf(db.checks, id))
    ensures Tells(Next(db, step).watches[id], RowsOf(Next(db, step).checks, id))
  {
    hide RowsOf, Tells, Inv;
    if id !in db.watches {
      NewTells(db, step, id);
    } else if step.RescheduleStep? || step.CompleteStep? || step.FailStep? {
      FinishTells(db, step, id);
    } else {
      ShapeAt(db, id);
      QuietTells(db, step, id);
    }
  }

  lemma NewTells(db: Db, step: Step, id: Id)
    requires Inv(db) && id !in db.watches && id in Next(db, step).watches
    ensures Tells(Next(db, step).watches[id], RowsOf(Next(db, step).checks, id))
  {
    hide RowsOf, Inv, Tells;
    NoneYet(db, id);
    NewUntold(db, step, id);
    FreshTells(Next(db, step).watches[id]);
  }

  lemma NewUntold(db: Db, step: Step, id: Id)
    requires id !in db.watches && id in Next(db, step).watches
    ensures step.CreateStep? && Next(db, step) == db.(watches := db.watches[id := NewWatch(step.expiresAt, step.now)])
  {
    hide ExpireOne, Due, Before, Inserted;
  }

  lemma FreshTells(w: Watch)
    requires w.status == AWAITING_LIVENESS && w.failures == 0 && w.receiptId.None? && w.matchedOffer.None?
    ensures Tells(w, [])
  {
  }

  lemma NoneYet(db: Db, id: Id)
    requires Inv(db) && id !in db.watches
    ensures RowsOf(db.checks, id) == []
  {
    hide RowsOf;
    NoRows(db.checks, id);
  }

  lemma QuietTells(db: Db, step: Step, id: Id)
    requires id in db.watches && Shaped(db.watches[id]) && Tells(db.watches[id], RowsOf(db.checks, id))
    requires !step.RescheduleStep? && !step.CompleteStep? && !step.FailStep?
    ensures Next(db, step).checks == db.checks
    ensures id in Next(db, step).watches && Tells(Next(db, step).watches[id], RowsOf(db.checks, id))
  {
    hide RowsOf, ErrorsAtEnd, LastOutcome;
  }

  lemma FinishTells(db: Db, step: Step, id: Id)
    requires id in db.watches && Tells(db.watches[id], RowsOf(db.checks, id)) && SearchOutcome(step)
    requires step.RescheduleStep? || step.CompleteStep? || step.FailStep?
    ensures id in Next(db, step).watches && Tells(Next(db, step).watches[id], RowsOf(Next(db, step).checks, id))
  {
    hide RowsOf, ErrorsAtEnd, LastOutcome;
    if |Next(db, step).checks| > |db.checks| {
      var c := Next(db, step).checks[|db.checks|];
      RowsAppend(db.checks, c, id);
      ErrorsAppend(RowsOf(db.checks, id), c);
    }
  }

  /** Over every run a watch agrees with its check rows: its failures are the errors at their end, it is COMPLETED
      (with offer and receipt) exactly when they end in a purchase, FAILED only when they end in an error, and a
      plain outcome it shows is that of the last one. */
  lemma {:induction false} ChecksTellTheStory(db: Db, steps: seq<Step>)
    requires Inv(db) && TellsAll(db) && forall i :: 0 <= i < |steps| ==> SearchOutcome(steps[i])
    ensures TellsAll(Run(db, steps))
    decreases |steps|
  {
    hide Inv, Next, Tells;
    if steps != [] {
      var db' := Next(db, steps[0]);
      NextKeeps(db, steps[0]);
      forall id | id in db'.watches ensures Tells(db'.watches[id], RowsOf(db'.checks, id)) { TellsStep(db, steps[0], id); }
      ChecksTellTheStory(db', steps[1..]);
    }
  }

  lemma EmptyTells()
    ensures Inv(EMPTY) && TellsAll(EMPTY)
  {
  }
}
