/** The append-only audit table and its repository (ledger/repository.ts, ledger/service.ts). */
module Ledger {
  import opened Common
  import opened AuditEvents
  import opened HashChain

  datatype AuditRow = AuditRow(event: AuditEvent, deduplicationKey: Option<string>)

  datatype AppendInput = AppendInput(
    correlationId: Id,
    subjectId: Id,
    payload: Payload,
    recordedAt: Instant,
    deduplicationKey: Option<string>)

  datatype LedgerError = BrokenChain | InvalidChain | DeduplicationConflict | NoUniqueTip | UniqueViolation

  /** A row as it is read back: a payload that no longer parses as its event type reads as null. */
  function StoredEvent(row: AuditRow): AuditEvent {
    var e := row.event;
    if e.sanitizedPayload.Some? && TypeOf(e.sanitizedPayload.value) == e.eventType then e
    else e.(sanitizedPayload := None)
  }

  /** The rows of one subject, in insertion order. */
  function SubjectEvents(rows: seq<AuditRow>, subjectId: Id): (r: seq<AuditEvent>)
    ensures |r| <= |rows|
    ensures forall e :: e in r ==> e.subjectId == subjectId
    ensures forall e :: e in r ==> exists i :: 0 <= i < |rows| && StoredEvent(rows[i]) == e
  {
    if rows == [] then []
    else
      var init, last := SubjectEvents(rows[..|rows| - 1], subjectId), StoredEvent(rows[|rows| - 1]);
      assert rows == rows[..|rows| - 1] + [rows[|rows| - 1]];
      if last.subjectId == subjectId then init + [last] else init
  }

  lemma SubjectEventsAppend(rows: seq<AuditRow>, row: AuditRow, subjectId: Id)
    ensures SubjectEvents(rows + [row], subjectId)
         == SubjectEvents(rows, subjectId) + if row.event.subjectId == subjectId then [StoredEvent(row)] else []
  {
    assert (rows + [row])[..|rows|] == rows;
  }

  function FindByKey(rows: seq<AuditRow>, key: string): (r: Option<AuditEvent>)
    ensures r.Some? <==> exists i :: 0 <= i < |rows| && rows[i].deduplicationKey == Some(key)
    ensures r.Some? ==> exists i :: 0 <= i < |rows| && rows[i].deduplicationKey == Some(key) && r.value == StoredEvent(rows[i])
  {
    if rows == [] then None
    else if rows[0].deduplicationKey == Some(key) then Some(StoredEvent(rows[0]))
    else
      assert rows == [rows[0]] + rows[1..];
      FindByKey(rows[1..], key)
  }

  function ReferencedHashes(events: seq<AuditEvent>): set<Digest> {
    set i | 0 <= i < |events| && events[i].previousHash.Some? :: events[i].previousHash.value
  }

  function FindUniqueTip(events: seq<AuditEvent>): Result<Option<AuditEvent>, LedgerError> {
    if events == [] then Ok(None)
    else
      var referenced := ReferencedHashes(events);
      var tips := Filter(events, (e: AuditEvent) => e.eventHash !in referenced);
      if |tips| != 1 then Err(NoUniqueTip) else Ok(Some(tips[0]))
  }

  function Candidate(h: Hasher, input: AppendInput, eventId: Id, tip: Option<AuditEvent>): AuditEvent {
    var previousHash := if tip.Some? then Some(tip.value.eventHash) else None;
    var draft := AuditEvent(eventId, input.correlationId, TypeOf(input.payload), input.subjectId,
                            Some(input.payload), h.payload(input.payload), previousHash, "", input.recordedAt);
    draft.(eventHash := h.event(HashInput(draft)))
  }

  predicate ViolatesUnique(rows: seq<AuditRow>, row: AuditRow) {
    exists i :: 0 <= i < |rows| &&
      (rows[i].event.eventId == row.event.eventId
       || rows[i].event.eventHash == row.event.eventHash
       || (row.deduplicationKey.Some? && rows[i].deduplicationKey == row.deduplicationKey))
  }

  ghost predicate SameEvidence(h: Hasher, stored: AuditEvent, input: AppendInput) {
    && stored.subjectId == input.subjectId
    && stored.eventType == TypeOf(input.payload)
    && stored.payloadHash == h.payload(input.payload)
  }

  /** One `append` transaction: its result, and the table after it (unchanged when it throws). */
  ghost function Appended(h: Hasher, rows: seq<AuditRow>, input: AppendInput, eventId: Id)
    : (r: (Result<AuditEvent, LedgerError>, seq<AuditRow>))
    ensures r.0.Err? ==> r.1 == rows
  {
    var ordered := OrderChain(SubjectEvents(rows, input.subjectId));
    if ordered.Err? then (Err(BrokenChain), rows)
    else if !ValidChain(h, ordered.value) then (Err(InvalidChain), rows)
    else
      var replay := Replay(rows, input);
      if replay.Some? then
        if SameEvidence(h, replay.value, input) then (Ok(replay.value), rows) else (Err(DeduplicationConflict), rows)
      else
        var tip := FindUniqueTip(ordered.value);
        if tip.Err? then (Err(tip.error), rows)
        else
          var row := AuditRow(Candidate(h, input, eventId, tip.value), input.deduplicationKey);
          if ViolatesUnique(rows, row) then (Err(UniqueViolation), rows)
          else (Ok(StoredEvent(row)), rows + [row])
  }

  // ---------- The table's unique constraints, and what every run of appends keeps ----------

  ghost predicate UniqueRows(rows: seq<AuditRow>) {
    forall i, j :: 0 <= i < j < |rows| ==>
      && rows[i].event.eventId != rows[j].event.eventId
      && rows[i].event.eventHash != rows[j].event.eventHash
      && (rows[i].deduplicationKey.Some? ==> rows[i].deduplicationKey != rows[j].deduplicationKey)
  }

  ghost predicate FaithfulRow(h: Hasher, row: AuditRow) {
    && row.event.sanitizedPayload.Some?
    && row.event.eventType == TypeOf(row.event.sanitizedPayload.value)
    && row.event.eventHash == h.event(HashInput(row.event))
  }

  /** Rows written by `append` alone: every subject's rows, in insertion order, are a valid chain. */
  ghost predicate LedgerInv(h: Hasher, rows: seq<AuditRow>) {
    && UniqueRows(rows)
    && (forall i :: 0 <= i < |rows| ==> FaithfulRow(h, rows[i]))
    && (forall s :: ValidChain(h, SubjectEvents(rows, s)))
  }

  lemma UniqueRowsAppend(rows: seq<AuditRow>, row: AuditRow)
    requires UniqueRows(rows) && !ViolatesUnique(rows, row)
    ensures UniqueRows(rows + [row])
  {
  }

  lemma EmptyLedger(h: Hasher)
    ensures LedgerInv(h, [])
  {
    forall s ensures ValidChain(h, SubjectEvents([], s)) {
      assert SubjectEvents([], s) == [];
    }
  }

  lemma SubjectHashesDistinct(rows: seq<AuditRow>, subjectId: Id)
    requires UniqueRows(rows)
    ensures DistinctHashes(SubjectEvents(rows, subjectId))
  {
    if rows != [] {
      var init, last := rows[..|rows| - 1], rows[|rows| - 1];
      SubjectHashesDistinct(init, subjectId);
      assert forall e :: e in SubjectEvents(init, subjectId) ==> e.eventHash != last.event.eventHash;
    }
  }

  /** In a linked chain exactly the events before the last are referenced by another. */
  lemma ReferencedIffNotLast(chain: seq<AuditEvent>, i: nat)
    requires DistinctHashes(chain) && Linked(chain) && i < |chain|
    ensures chain[i].eventHash in ReferencedHashes(chain) <==> i < |chain| - 1
  {
    if i < |chain| - 1 {
      assert LinkAt(chain, i + 1);
    } else {
      forall j | 0 <= j < |chain| ensures chain[j].previousHash != Some(chain[i].eventHash) {
        assert LinkAt(chain, j);
      }
    }
  }

  /** `findUniqueTip` never fails on a valid chain: the tip is its last event. */
  lemma TipOfValidChain(h: Hasher, chain: seq<AuditEvent>)
    requires h.CollisionFree() && ValidChain(h, chain)
    ensures FindUniqueTip(chain) == Ok(if chain == [] then None else Some(chain[|chain| - 1]))
  {
    if chain != [] {
      ValidChainRebuilds(h, chain, chain);
      TipOfLinkedChain(chain);
    }
  }

  lemma TipOfLinkedChain(chain: seq<AuditEvent>)
    requires DistinctHashes(chain) && Linked(chain) && chain != []
    ensures FindUniqueTip(chain) == Ok(Some(chain[|chain| - 1]))
  {
    var n, referenced := |chain| - 1, ReferencedHashes(chain);
    var p := (e: AuditEvent) => e.eventHash !in referenced;
    forall e | e in chain[..n] ensures !p(e) {
      var i :| 0 <= i < n && chain[i] == e;
      ReferencedIffNotLast(chain, i);
    }
    ReferencedIffNotLast(chain, n);
    NoneFiltered(chain[..n], p);
    FilterAppend(chain[..n], chain[n], p);
    assert chain == chain[..n] + [chain[n]];
  }

  /** The row that `append` inserts into a ledger written by `append` alone. */
  ghost function NextRow(h: Hasher, rows: seq<AuditRow>, input: AppendInput, eventId: Id): AuditRow {
    var chain := SubjectEvents(rows, input.subjectId);
    var tip := if chain == [] then None else Some(chain[|chain| - 1]);
    AuditRow(Candidate(h, input, eventId, tip), input.deduplicationKey)
  }

  function Replay(rows: seq<AuditRow>, input: AppendInput): Option<AuditEvent> {
    if input.deduplicationKey.Some? then FindByKey(rows, input.deduplicationKey.value) else None
  }

  predicate IdTaken(rows: seq<AuditRow>, eventId: Id) {
    exists i :: 0 <= i < |rows| && rows[i].event.eventId == eventId
  }

  /** The event id is the only thing a new row can collide on. */
  lemma OnlyIdsCollide(h: Hasher, rows: seq<AuditRow>, input: AppendInput, eventId: Id)
    requires h.CollisionFree() && LedgerInv(h, rows) && Replay(rows, input).None?
    ensures ViolatesUnique(rows, NextRow(h, rows, input, eventId)) <==> IdTaken(rows, eventId)
  {
    var row := NextRow(h, rows, input, eventId);
    assert row.event.eventHash == h.event(HashInput(row.event)) by {
      assert HashInput(row.event) == HashInput(row.event.(eventHash := ""));
    }
    forall i | 0 <= i < |rows| && rows[i].event.eventHash == row.event.eventHash
      ensures rows[i].event.eventId == eventId
    {
      assert FaithfulRow(h, rows[i]);
      assert HashInput(rows[i].event) == HashInput(row.event);
    }
  }

  /** What `append` does to a ledger written by `append` alone: no chain or tip error is left. */
  lemma AppendOutcome(h: Hasher, rows: seq<AuditRow>, input: AppendInput, eventId: Id)
    requires h.CollisionFree() && LedgerInv(h, rows)
    ensures Appended(h, rows, input, eventId) ==
      var replay, row := Replay(rows, input), NextRow(h, rows, input, eventId);
      if replay.Some? then
        (if SameEvidence(h, replay.value, input) then Ok(replay.value) else Err(DeduplicationConflict), rows)
      else if IdTaken(rows, eventId) then (Err(UniqueViolation), rows)
      else (Ok(row.event), rows + [row])
  {
    var chain := SubjectEvents(rows, input.subjectId);
    assert ValidChain(h, chain);
    ValidChainRebuilds(h, chain, chain);
    TipOfValidChain(h, chain);
    if Replay(rows, input).None? { OnlyIdsCollide(h, rows, input, eventId); }
  }

  lemma NextRowKeepsInv(h: Hasher, rows: seq<AuditRow>, input: AppendInput, eventId: Id)
    requires h.CollisionFree() && LedgerInv(h, rows) && Replay(rows, input).None? && !IdTaken(rows, eventId)
    ensures var row := NextRow(h, rows, input, eventId);
      && LedgerInv(h, rows + [row])
      && SubjectEvents(rows + [row], input.subjectId) == SubjectEvents(rows, input.subjectId) + [row.event]
      && forall s :: s != input.subjectId ==> SubjectEvents(rows + [row], s) == SubjectEvents(rows, s)
  {
    var row := NextRow(h, rows, input, eventId);
    OnlyIdsCollide(h, rows, input, eventId);
    UniqueRowsAppend(rows, row);
    assert FaithfulRow(h, row) by {
      assert HashInput(row.event) == HashInput(row.event.(eventHash := ""));
    }
    forall s
      ensures ValidChain(h, SubjectEvents(rows + [row], s))
      ensures SubjectEvents(rows + [row], s) == SubjectEvents(rows, s) + if s == input.subjectId then [row.event] else []
    {
      var chain := SubjectEvents(rows, s);
      SubjectEventsAppend(rows, row, s);
      assert ValidChain(h, chain);
      if s == input.subjectId {
        assert chain != [] ==> chain[0] in chain;
        ValidChainExtends(h, chain, row.event);
      } else {
        assert chain + [] == chain;
      }
    }
  }

  /** `append` keeps every subject a valid chain and touches no other subject; the only failures left
      are a deduplication key reused with other evidence and an event id that is already taken. */
  lemma AppendKeepsInv(h: Hasher, rows: seq<AuditRow>, input: AppendInput, eventId: Id)
    requires h.CollisionFree() && LedgerInv(h, rows)
    ensures var (r, rows') := Appended(h, rows, input, eventId);
      && LedgerInv(h, rows') && rows <= rows'
      && (r.Err? ==> rows' == rows && (r.error == DeduplicationConflict || r.error == UniqueViolation))
      && (forall s :: s != input.subjectId ==> SubjectEvents(rows', s) == SubjectEvents(rows, s))
  {
    AppendOutcome(h, rows, input, eventId);
    if Replay(rows, input).None? && !IdTaken(rows, eventId) {
      NextRowKeepsInv(h, rows, input, eventId);
    }
  }

  // ---------- Whole runs ----------

  datatype AppendCommand = AppendCommand(input: AppendInput, eventId: Id)

  ghost function RunAppends(h: Hasher, rows: seq<AuditRow>, commands: seq<AppendCommand>): seq<AuditRow>
    decreases |commands|
  {
    if commands == [] then rows
    else RunAppends(h, Appended(h, rows, commands[0].input, commands[0].eventId).1, commands[1..])
  }

  lemma {:induction false} RunKeepsInv(h: Hasher, rows: seq<AuditRow>, commands: seq<AppendCommand>)
    requires h.CollisionFree() && LedgerInv(h, rows)
    ensures LedgerInv(h, RunAppends(h, rows, commands)) && rows <= RunAppends(h, rows, commands)
    decreases |commands|
  {
    if commands != [] {
      AppendKeepsInv(h, rows, commands[0].input, commands[0].eventId);
      RunKeepsInv(h, Appended(h, rows, commands[0].input, commands[0].eventId).1, commands[1..]);
    }
  }

  /** After any run of appends, retries included, the rows of every subject, loaded in any order,
      rebuild to append order and validate, and their unique tip is the event appended last. */
  lemma EveryRunRebuilds(h: Hasher, commands: seq<AppendCommand>, subjectId: Id, loaded: seq<AuditEvent>)
    requires h.CollisionFree()
    requires multiset(loaded) == multiset(SubjectEvents(RunAppends(h, [], commands), subjectId))
    ensures var chain := SubjectEvents(RunAppends(h, [], commands), subjectId);
      && OrderChain(loaded) == Ok(chain) && ValidChain(h, chain)
      && FindUniqueTip(chain) == Ok(if chain == [] then None else Some(chain[|chain| - 1]))
  {
    EmptyLedger(h);
    RunKeepsInv(h, [], commands);
    var chain := SubjectEvents(RunAppends(h, [], commands), subjectId);
    ValidChainRebuilds(h, chain, loaded);
    TipOfValidChain(h, chain);
  }

  lemma {:induction false} FindByKeyPrefix(rows: seq<AuditRow>, more: seq<AuditRow>, key: string)
    requires rows <= more && FindByKey(rows, key).Some?
    ensures FindByKey(more, key) == FindByKey(rows, key)
  {
    if rows[0].deduplicationKey != Some(key) {
      FindByKeyPrefix(rows[1..], more[1..], key);
    }
  }

  lemma FindByKeyLast(rows: seq<AuditRow>, row: AuditRow, key: string)
    requires FindByKey(rows, key).None? && row.deduplicationKey == Some(key)
    ensures FindByKey(rows + [row], key) == Some(StoredEvent(row))
  {
    if rows != [] {
      assert (rows + [row])[1..] == rows[1..] + [row];
      FindByKeyLast(rows[1..], row, key);
    }
  }

  /** Whatever `append` returns carries the evidence it was asked to record. */
  lemma ResultCarriesEvidence(h: Hasher, rows: seq<AuditRow>, input: AppendInput, eventId: Id)
    requires h.CollisionFree() && LedgerInv(h, rows)
    requires Appended(h, rows, input, eventId).0.Ok?
    ensures var (r, rows') := Appended(h, rows, input, eventId);
      && SameEvidence(h, r.value, input)
      && (input.deduplicationKey.Some? ==> FindByKey(rows', input.deduplicationKey.value) == Some(r.value))
  {
    AppendOutcome(h, rows, input, eventId);
    var rows' := Appended(h, rows, input, eventId).1;
    if input.deduplicationKey.Some? && FindByKey(rows, input.deduplicationKey.value).None? {
      FindByKeyLast(rows, rows'[|rows|], input.deduplicationKey.value);
    }
  }

  /** A retry under the same key with the same evidence, however much later, returns the original
      event and adds nothing; under the same key with other evidence it is refused. */
  lemma RetryReturnsOriginal(h: Hasher, rows: seq<AuditRow>, input: AppendInput, eventId: Id,
                             between: seq<AppendCommand>, retry: AppendInput, retryId: Id)
    requires h.CollisionFree() && LedgerInv(h, rows)
    requires Appended(h, rows, input, eventId).0.Ok?
    requires input.deduplicationKey.Some? && retry.deduplicationKey == input.deduplicationKey
    ensures var (original, rows1) := Appended(h, rows, input, eventId);
      var rows2 := RunAppends(h, rows1, between);
      Appended(h, rows2, retry, retryId) ==
        if retry.subjectId == input.subjectId && retry.payload == input.payload then (original, rows2)
        else (Err(DeduplicationConflict), rows2)
  {
    var (original, rows1) := Appended(h, rows, input, eventId);
    var rows2 := RunAppends(h, rows1, between);
    ResultCarriesEvidence(h, rows, input, eventId);
    AppendKeepsInv(h, rows, input, eventId);
    RunKeepsInv(h, rows1, between);
    FindByKeyPrefix(rows1, rows2, input.deduplicationKey.value);
    assert SameEvidence(h, original.value, retry) <==> retry.subjectId == input.subjectId && retry.payload == input.payload;
    AppendOutcome(h, rows2, retry, retryId);
  }

  // ---------- The repository ----------

  class AuditRepository {
    const h: Hasher
    var rows: seq<AuditRow>

    /** What the table's constraints enforce, whoever writes to it. */
    ghost predicate Valid()
      reads this
    {
      UniqueRows(rows)
    }

    constructor (h: Hasher)
      ensures Valid() && this.h == h && rows == []
    {
      this.h := h;
      rows := [];
    }

    /** `loaded` is the subject's rows in whatever order the query returned them. */
    method Append(input: AppendInput, eventId: Id, loaded: seq<AuditEvent>)
      returns (r: Result<AuditEvent, LedgerError>)
      requires Valid()
      requires multiset(loaded) == multiset(SubjectEvents(rows, input.subjectId))
      modifies this
      ensures Valid()
      ensures (r, rows) == Appended(h, old(rows), input, eventId)
    {
      SubjectHashesDistinct(rows, input.subjectId);
      OrderChainExact(SubjectEvents(rows, input.subjectId), loaded);
      var ordered := OrderAuditChain(loaded);
      if ordered.Err? { return Err(BrokenChain); }
      var validation := ValidateAuditChain(h, ordered.value);
      if validation.Invalid? { return Err(InvalidChain); }
      if input.deduplicationKey.Some? {
        var replay := FindByKey(rows, input.deduplicationKey.value);
        if replay.Some? {
          var stored := replay.value;
          if stored.subjectId != input.subjectId
            || stored.eventType != TypeOf(input.payload)
            || stored.payloadHash != h.payload(input.payload)
          {
            return Err(DeduplicationConflict);
          }
          return Ok(stored);
        }
      }
      var tip := FindUniqueTip(ordered.value);
      if tip.Err? { return Err(tip.error); }
      var row := AuditRow(Candidate(h, input, eventId, tip.value), input.deduplicationKey);
      if ViolatesUnique(rows, row) { return Err(UniqueViolation); }
      UniqueRowsAppend(rows, row);
      rows := rows + [row];
      return Ok(StoredEvent(row));
    }
  }
}
