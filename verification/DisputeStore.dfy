/** The disputes table and the transaction that fills it, as they run (disputes/service.ts). */
module DisputeStores {
  import opened Common
  import opened AuditEvents
  import opened Ledger
  import R = Rail
  import P = DisputeProcess

  class PurchaseDisputeService {
    const h: Hasher
    const ledger: AuditRepository
    var disputes: map<Id, P.DisputeRow>

    ghost predicate Valid()
      reads this, ledger
    {
      ledger.Valid() && ledger.h == h && P.UniqueDisputes(disputes)
    }

    constructor (h: Hasher)
      ensures Valid() && fresh(ledger) && this.h == h && disputes == map[] && ledger.rows == []
    {
      this.h := h;
      ledger := new AuditRepository(h);
      disputes := map[];
    }

    method FindByKey(key: Id) returns (r: Option<Id>)
      ensures r.Some? ==> r.value in disputes && disputes[r.value].key == key
      ensures r.None? ==> forall d :: d in disputes ==> disputes[d].key != key
    {
      var left := disputes.Keys;
      while left != {}
        invariant left <= disputes.Keys
        invariant forall d :: d in disputes && disputes[d].key == key ==> d in left
      {
        var d :| d in left;
        if disputes[d].key == key { return Some(d); }
        left := left - {d};
      }
      return None;
    }

    method Log(input: AppendInput, eventId: Id) returns (r: Option<R.RailError>)
      requires Valid()
      modifies ledger
      ensures Valid()
      ensures var spec := R.Log(h, old(ledger.rows), input, eventId);
        if spec.Ok? then r == None && ledger.rows == spec.value.audit
        else r == Some(spec.error) && ledger.rows == old(ledger.rows)
    {
      hide P.UniqueDisputes, UniqueRows, Appended, SubjectEvents;
      var appended := ledger.Append(input, eventId, SubjectEvents(ledger.rows, input.subjectId));
      if appended.Err? { return Some(R.LedgerFailure(appended.error)); }
      return None;
    }

    /** The transaction of `open`: a failing append rolls the dispute and its earlier events back. */
    method Commit(p: P.Prepared, draw: P.Draw) returns (r: Result<Id, P.DisputeError>)
      requires Valid() && p.graph.order.receiptId == p.input.receiptId
      modifies this, ledger
      ensures Valid()
      ensures (r, disputes, ledger.rows) == P.Commit(h, old(disputes), old(ledger.rows), p, draw)
    {
      hide UniqueRows, R.Log;
      var replay := FindByKey(p.input.key);
      if replay.Some? {
        var row := disputes[replay.value];
        if row.principalId != p.input.principalId || row.order.receiptId != p.input.receiptId || row.reason != p.input.reason {
          return Err(P.KeyReused);
        }
        return Ok(replay.value);
      }
      if P.ReceiptDisputed(disputes, p.input.receiptId) { return Err(P.AlreadyDisputed); }
      if draw.disputeId in disputes { return Err(P.DuplicateDispute); }
      var disputesBefore, rowsBefore := disputes, ledger.rows;
      disputes := disputes[draw.disputeId := P.NewDispute(p, draw)];
      var failure := Log(P.DisputeEvent(p, draw, "dispute.opened", draw.bodies.0, "opened"), draw.eventIds.0);
      if failure.None? {
        failure := Log(P.DisputeEvent(p, draw, "dispute.evidence_evaluated", draw.bodies.1, "evidence"), draw.eventIds.1);
      }
      if failure.None? {
        failure := Log(P.DisputeEvent(p, draw, "dispute.resolved", draw.bodies.2, "resolved"), draw.eventIds.2);
      }
      if failure.Some? {
        disputes, ledger.rows := disputesBefore, rowsBefore;
        return Err(P.LedgerFailed(failure.value));
      }
      return Ok(draw.disputeId);
    }
  }
}
