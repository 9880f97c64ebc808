/** The watch repository as it runs: each method locks one row and overwrites it
    (travelbot/postgres-watch-repository.ts). */
module WatchRepositories {
  import opened Common
  import W = Watches

  class PostgresTravelWatchRepository {
    var watches: map<Id, W.Watch>
    var checks: seq<W.Check>

    function Rows(): W.Db
      reads this
    {
      W.Db(watches, checks)
    }

    constructor ()
      ensures Rows() == W.EMPTY
    {
      watches, checks := map[], [];
    }

    method Activate(id: Id, now: Instant) returns (r: Result<W.Watch, W.WatchError>)
      modifies this
      ensures (r, Rows()) == W.Activate(old(Rows()), id, now)
    {
      if id !in watches { return Err(W.NotFound); }
      var row := watches[id];
      if row.status == W.ACTIVE { return Ok(row); }
      if row.status != W.AWAITING_LIVENESS { return Err(W.Refused); }
      row := row.(status := W.ACTIVE, nextCheckAt := Some(now), leaseExpiresAt := None, version := row.version + 1);
      watches := watches[id := row];
      return Ok(row);
    }

    method Expedite(id: Id, now: Instant) returns (r: Result<W.Watch, W.WatchError>)
      modifies this
      ensures (r, Rows()) == W.Expedite(old(Rows()), id, now)
    {
      if id !in watches { return Err(W.NotFound); }
      var row := watches[id];
      if row.status != W.ACTIVE { return Err(W.Refused); }
      if row.expiresAt <= now { return Err(W.Refused); }
      row := row.(nextCheckAt := Some(now), leaseExpiresAt := None, version := row.version + 1);
      watches := watches[id := row];
      return Ok(row);
    }

    /** The first due row that is not locked, by next check (nulls last), then by creation. */
    method FirstDue(now: Instant, locked: set<Id>) returns (pick: Option<Id>)
      ensures W.IsDuePick(Rows(), now, locked, pick)
    {
      pick := None;
      var left := watches.Keys;
      while left != {}
        invariant left <= watches.Keys
        invariant pick.Some? ==> pick.value in watches && pick.value !in locked && W.Due(watches[pick.value], now)
        invariant forall id :: id in watches && id !in left && id !in locked && W.Due(watches[id], now) ==>
          pick.Some? && !W.Before(watches[id], watches[pick.value])
      {
        var id :| id in left;
        if id !in locked && W.Due(watches[id], now) && (pick.None? || W.Before(watches[id], watches[pick.value])) {
          pick := Some(id);
        }
        left := left - {id};
      }
    }

    method ClaimDue(now: Instant, locked: set<Id>) returns (r: Option<W.Watch>)
      modifies this
      ensures exists pick :: (W.IsDuePick(W.Expire(old(Rows()), now), now, locked, pick)
                              && (r, Rows()) == W.ClaimDue(old(Rows()), now, pick))
    {
      watches := map id | id in watches :: W.ExpireOne(watches[id], now);
      assert Rows() == W.Expire(old(Rows()), now);
      var pick := FirstDue(now, locked);
      if pick.None? {
        assert W.IsDuePick(Rows(), now, locked, None);
        return None;
      }
      var row := watches[pick.value];
      row := row.(status := W.CHECKING, nextCheckAt := None, lastCheckedAt := Some(now),
                  leaseExpiresAt := Some(now + W.LEASE_MS), attempts := row.attempts + 1, version := row.version + 1);
      assert W.IsDuePick(Rows(), now, locked, pick);
      watches := watches[pick.value := row];
      return Some(row);
    }

    /** Inserts the check row of an attempt; a second row for it rolls the transaction back. */
    method InsertCheck(id: Id, attempt: nat, outcome: W.CheckOutcome) returns (inserted: bool)
      modifies this`checks
      ensures inserted == !W.Inserted(old(checks), id, attempt)
      ensures checks == if inserted then old(checks) + [W.Check(id, attempt, outcome)] else old(checks)
    {
      if W.Inserted(checks, id, attempt) { return false; }
      checks := checks + [W.Check(id, attempt, outcome)];
      return true;
    }

    method Reschedule(id: Id, outcome: W.CheckOutcome, nextCheckAt: Instant) returns (r: Result<W.Watch, W.WatchError>)
      modifies this
      ensures (r, Rows()) == W.Reschedule(old(Rows()), id, outcome, nextCheckAt)
    {
      if id !in watches { return Err(W.NotFound); }
      var row, before := watches[id], watches;
      if row.status != W.CHECKING { return Err(W.Refused); }
      var updated := row.(status := W.ACTIVE, nextCheckAt := Some(nextCheckAt), leaseExpiresAt := None,
                          lastOutcome := Some(outcome), matchedOffer := None, failures := 0, version := row.version + 1);
      watches := watches[id := updated];
      var inserted := InsertCheck(id, row.attempts, outcome);
      if !inserted {
        watches := before;
        return Err(W.DuplicateCheck);
      }
      return Ok(updated);
    }

    method StagePurchase(id: Id, offerId: Id) returns (r: Result<W.Watch, W.WatchError>)
      modifies this
      ensures (r, Rows()) == W.StagePurchase(old(Rows()), id, offerId)
    {
      if id !in watches { return Err(W.NotFound); }
      var row := watches[id];
      if row.status != W.CHECKING { return Err(W.Refused); }
      row := row.(lastOutcome := Some(W.MATCH_FOUND), matchedOffer := Some(offerId), version := row.version + 1);
      watches := watches[id := row];
      return Ok(row);
    }

    method CompletePurchase(id: Id, offerId: Id, receiptId: Id) returns (r: Result<W.Watch, W.WatchError>)
      modifies this
      ensures (r, Rows()) == W.CompletePurchase(old(Rows()), id, offerId, receiptId)
    {
      if id !in watches { return Err(W.NotFound); }
      var row, before := watches[id], watches;
      if row.status == W.COMPLETED && row.matchedOffer == Some(offerId) && row.receiptId == Some(receiptId) { return Ok(row); }
      if row.status != W.CHECKING { return Err(W.Refused); }
      var updated := row.(status := W.COMPLETED, nextCheckAt := None, leaseExpiresAt := None, lastOutcome := Some(W.MATCH_FOUND),
                          matchedOffer := Some(offerId), receiptId := Some(receiptId), failures := 0, version := row.version + 1);
      watches := watches[id := updated];
      var inserted := InsertCheck(id, row.attempts, W.PURCHASED);
      if !inserted {
        watches := before;
        return Err(W.DuplicateCheck);
      }
      return Ok(updated);
    }

    method FailCheck(id: Id, stale: bool, nextCheckAt: Option<Instant>) returns (r: Result<W.Watch, W.WatchError>)
      modifies this
      ensures (r, Rows()) == W.FailCheck(old(Rows()), id, stale, nextCheckAt)
    {
      if id !in watches { return Err(W.NotFound); }
      var row, before := watches[id], watches;
      if row.status != W.CHECKING { return Err(W.Refused); }
      var updated := row.(status := if nextCheckAt.None? then W.FAILED else W.ACTIVE, nextCheckAt := nextCheckAt,
                          leaseExpiresAt := None, failures := row.failures + 1, version := row.version + 1);
      if stale { updated := updated.(matchedOffer := None); }
      watches := watches[id := updated];
      var inserted := InsertCheck(id, row.attempts, W.ERROR);
      if !inserted {
        watches := before;
        return Err(W.DuplicateCheck);
      }
      return Ok(updated);
    }

    method Cancel(id: Id) returns (r: Result<W.Watch, W.WatchError>)
      modifies this
      ensures (r, Rows()) == W.Cancel(old(Rows()), id)
    {
      if id !in watches { return Err(W.NotFound); }
      var row := watches[id];
      if row.status == W.CANCELLED { return Ok(row); }
      if row.status == W.COMPLETED || row.status == W.EXPIRED { return Err(W.Refused); }
      row := row.(status := W.CANCELLED, nextCheckAt := None, leaseExpiresAt := None, version := row.version + 1);
      watches := watches[id := row];
      return Ok(row);
    }
  }
}
