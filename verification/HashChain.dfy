/** Reconstruction and validation of one subject's hash chain (ledger/hash-chain.ts). */
module HashChain {
  import opened Common
  import opened AuditEvents

  datatype ChainError = InconsistentRoots | InconsistentLink

  datatype InvalidReason =
    | MixedSubjects
    | MissingPayload
    | PayloadHashMismatch
    | PreviousHashMismatch
    | EventHashMismatch

  datatype ChainValidation = Valid | Invalid(index: nat, reason: InvalidReason)

  // ---------- What a chain is, independently of the algorithms ----------

  /** The previous hash that the event at position `i` of a linked chain carries. */
  function PreviousAt(chain: seq<AuditEvent>, i: nat): Option<Digest>
    requires i < |chain|
  {
    if i == 0 then None else Some(chain[i - 1].eventHash)
  }

  ghost predicate LinkAt(chain: seq<AuditEvent>, i: nat)
    requires i < |chain|
  {
    chain[i].previousHash == PreviousAt(chain, i)
  }

  ghost predicate Linked(chain: seq<AuditEvent>) {
    forall i :: 0 <= i < |chain| ==> LinkAt(chain, i)
  }

  ghost predicate DistinctHashes(events: seq<AuditEvent>) {
    forall i, j :: 0 <= i < j < |events| ==> events[i].eventHash != events[j].eventHash
  }

  /** `chain` lists exactly the given rows, linked from root to tip. */
  ghost predicate Rebuilds(events: seq<AuditEvent>, chain: seq<AuditEvent>) {
    multiset(chain) == multiset(events) && Linked(chain)
  }

  // ---------- orderAuditChain ----------

  function WithPrevious(events: seq<AuditEvent>, previous: Option<Digest>): (r: seq<AuditEvent>)
    ensures forall e :: e in r <==> e in events && e.previousHash == previous
  {
    Filter(events, (e: AuditEvent) => e.previousHash == previous)
  }

  function Extend(events: seq<AuditEvent>, ordered: seq<AuditEvent>): Result<seq<AuditEvent>, ChainError>
    requires 0 < |ordered| <= |events|
    decreases |events| - |ordered|
  {
    if |ordered| == |events| then Ok(ordered)
    else
      var children := WithPrevious(events, Some(ordered[|ordered| - 1].eventHash));
      if |children| != 1 then Err(InconsistentLink) else Extend(events, ordered + children)
  }

  /** The value `orderAuditChain` returns, or the error it throws. */
  function OrderChain(events: seq<AuditEvent>): Result<seq<AuditEvent>, ChainError> {
    if events == [] then Ok([])
    else
      var roots := WithPrevious(events, None);
      if |roots| != 1 then Err(InconsistentRoots) else Extend(events, roots)
  }

  method OrderAuditChain(events: seq<AuditEvent>) returns (r: Result<seq<AuditEvent>, ChainError>)
    ensures r == OrderChain(events)
    ensures DistinctHashes(events) && r.Ok? ==> Rebuilds(events, r.value)
    ensures (exists chain :: DistinctHashes(events) && Rebuilds(events, chain)) ==> r.Ok?
  {
    ghost var target := OrderChain(events);
    if DistinctHashes(events) { OrderChainSound(events); }
    forall chain | DistinctHashes(events) && Rebuilds(events, chain) ensures target.Ok? {
      OrderChainComplete(events, chain);
    }
    if |events| == 0 { return Ok([]); }
    var roots := WithPrevious(events, None);
    if |roots| != 1 { return Err(InconsistentRoots); }
    var ordered := roots;
    while |ordered| < |events|
      invariant 0 < |ordered| <= |events|
      invariant target == Extend(events, ordered)
    {
      var previous := ordered[|ordered| - 1];
      var children := WithPrevious(events, Some(previous.eventHash));
      if |children| != 1 { return Err(InconsistentLink); }
      ordered := ordered + children;
    }
    return Ok(ordered);
  }

  /** In rows with distinct hashes, the only row with previous hash `x.previousHash` is found alone. */
  lemma {:induction false} UniqueWithPrevious(events: seq<AuditEvent>, x: AuditEvent)
    requires DistinctHashes(events) && x in events
    requires forall e :: e in events && e.previousHash == x.previousHash ==> e == x
    ensures WithPrevious(events, x.previousHash) == [x]
  {
    var init, last := events[..|events| - 1], events[|events| - 1];
    assert events == init + [last];
    var p := (e: AuditEvent) => e.previousHash == x.previousHash;
    FilterAppend(init, last, p);
    if x in init {
      UniqueWithPrevious(init, x);
    } else {
      NoneFiltered(init, p);
    }
  }

  lemma DistinctHashesSame(events: seq<AuditEvent>, a: AuditEvent, b: AuditEvent)
    requires DistinctHashes(events) && a in events && b in events && a.eventHash == b.eventHash
    ensures a == b
  {
    var i :| 0 <= i < |events| && events[i] == a;
    var j :| 0 <= j < |events| && events[j] == b;
    assert i == j;
  }

  /** Distinctness does not depend on the order the rows were loaded in. */
  lemma DistinctHashesPermuted(events: seq<AuditEvent>, other: seq<AuditEvent>)
    requires DistinctHashes(events) && multiset(events) == multiset(other)
    ensures DistinctHashes(other)
  {
    SameMembers(events, other);
    NoDuplicatesMultiset(events);
    forall i, j | 0 <= i < j < |other| ensures other[i].eventHash != other[j].eventHash {
      OccursTwice(other, i, j);
      if other[i].eventHash == other[j].eventHash {
        DistinctHashesSame(events, other[i], other[j]);
        assert false;
      }
    }
  }

  /** A linked arrangement of the rows is what the loop finds, from any of its prefixes on. */
  lemma {:induction false} ExtendFollows(events: seq<AuditEvent>, chain: seq<AuditEvent>, k: nat)
    requires DistinctHashes(events) && Rebuilds(events, chain)
    requires 0 < k <= |chain| == |events|
    ensures Extend(events, chain[..k]) == Ok(chain)
    decreases |chain| - k
  {
    if k == |chain| {
      assert chain[..k] == chain;
    } else {
      ChildOf(events, chain, k);
      assert chain[..k] + [chain[k]] == chain[..k + 1];
      ExtendFollows(events, chain, k + 1);
    }
  }

  lemma ChildOf(events: seq<AuditEvent>, chain: seq<AuditEvent>, k: nat)
    requires DistinctHashes(events) && Rebuilds(events, chain) && k < |chain|
    ensures WithPrevious(events, PreviousAt(chain, k)) == [chain[k]]
  {
    SameMembers(chain, events);
    DistinctHashesPermuted(events, chain);
    assert LinkAt(chain, k) && chain[k] in events;
    forall e | e in events && e.previousHash == chain[k].previousHash ensures e == chain[k] {
      var i :| 0 <= i < |chain| && chain[i] == e;
      assert LinkAt(chain, i);
    }
    UniqueWithPrevious(events, chain[k]);
  }

  /** Completeness and uniqueness at once: every arrangement that links root to tip is the returned one. */
  lemma OrderChainComplete(events: seq<AuditEvent>, chain: seq<AuditEvent>)
    requires DistinctHashes(events) && Rebuilds(events, chain)
    ensures OrderChain(events) == Ok(chain)
  {
    SameMembers(chain, events);
    if events != [] {
      ChildOf(events, chain, 0);
      assert chain[..1] == [chain[0]];
      ExtendFollows(events, chain, 1);
    }
  }

  /** Every prefix the loop builds is linked and made of stored rows. */
  lemma {:induction false} ExtendKeeps(events: seq<AuditEvent>, ordered: seq<AuditEvent>)
    requires 0 < |ordered| <= |events|
    requires Linked(ordered) && forall e :: e in ordered ==> e in events
    requires Extend(events, ordered).Ok?
    ensures var c := Extend(events, ordered).value;
      |c| == |events| && Linked(c) && forall e :: e in c ==> e in events
    decreases |events| - |ordered|
  {
    if |ordered| < |events| {
      var children := WithPrevious(events, Some(ordered[|ordered| - 1].eventHash));
      assert children[0] in children;
      var next := ordered + children;
      forall i | 0 <= i < |next| ensures LinkAt(next, i) {
        assert i < |ordered| ==> LinkAt(ordered, i);
      }
      ExtendKeeps(events, next);
    }
  }

  /** A linked sequence of rows with distinct hashes never visits a row twice. */
  lemma {:induction false} LinkedNeverRepeats(events: seq<AuditEvent>, c: seq<AuditEvent>, i: nat, j: nat)
    requires DistinctHashes(events) && Linked(c) && forall e :: e in c ==> e in events
    requires i < j < |c|
    ensures c[i] != c[j]
  {
    assert LinkAt(c, i) && LinkAt(c, j);
    if c[i] == c[j] {
      assert i > 0;
      DistinctHashesSame(events, c[i - 1], c[j - 1]);
      LinkedNeverRepeats(events, c, i - 1, j - 1);
    }
  }

  lemma OrderChainSound(events: seq<AuditEvent>)
    requires DistinctHashes(events)
    ensures OrderChain(events).Ok? ==> Rebuilds(events, OrderChain(events).value)
  {
    if OrderChain(events).Ok? && events != [] {
      var roots := WithPrevious(events, None);
      assert roots[0] in roots && LinkAt(roots, 0);
      ExtendKeeps(events, roots);
      var c := OrderChain(events).value;
      forall i, j | 0 <= i < j < |c| ensures c[i] != c[j] {
        LinkedNeverRepeats(events, c, i, j);
      }
      Pigeonhole(events, c);
    }
  }

  /** `orderAuditChain` succeeds exactly when the rows can be linked from root to tip; the result is
      then the only such arrangement, and any other load order of the rows gives it too. */
  lemma OrderChainExact(events: seq<AuditEvent>, loaded: seq<AuditEvent>)
    requires DistinctHashes(events) && multiset(loaded) == multiset(events)
    ensures OrderChain(events).Ok? <==> exists chain :: Rebuilds(events, chain)
    ensures forall chain :: Rebuilds(events, chain) <==> OrderChain(events) == Ok(chain)
    ensures OrderChain(loaded).Ok? <==> OrderChain(events).Ok?
    ensures OrderChain(events).Ok? ==> OrderChain(loaded) == OrderChain(events)
  {
    OrderChainSound(events);
    DistinctHashesPermuted(events, loaded);
    OrderChainSound(loaded);
    forall chain | Rebuilds(events, chain) ensures OrderChain(events) == Ok(chain) == OrderChain(loaded) {
      OrderChainComplete(events, chain);
      OrderChainComplete(loaded, chain);
    }
    if OrderChain(loaded).Ok? {
      assert Rebuilds(events, OrderChain(loaded).value);
    }
  }

  /** Without distinct hashes the reconstruction can lose a row: here it returns `b` twice and drops `c`. */
  lemma DuplicateHashesLoseARow(root: AuditEvent, b: AuditEvent, c: AuditEvent)
    requires root.previousHash == None && b.previousHash == Some(root.eventHash)
    requires b.eventHash == root.eventHash && c.previousHash == Some(c.eventHash) && c.eventHash != root.eventHash
    ensures OrderChain([root, b, c]) == Ok([root, b, b])
  {
    var events := [root, b, c];
    FilterThree(root, b, c, (e: AuditEvent) => e.previousHash == None);
    FilterThree(root, b, c, (e: AuditEvent) => e.previousHash == Some(root.eventHash));
    assert WithPrevious(events, None) == [root] && WithPrevious(events, Some(root.eventHash)) == [b];
    assert [root] + [b] == [root, b] && [root, b] + [b] == [root, b, b];
    assert Extend(events, [root, b, b]) == Ok([root, b, b]);
    assert Extend(events, [root, b]) == Ok([root, b, b]);
  }

  // ---------- validateAuditChain ----------

  /** The first check that the event at `index` fails, in the order the loop makes them. */
  function CheckAt(h: Hasher, events: seq<AuditEvent>, index: nat): Option<InvalidReason>
    requires index < |events|
  {
    var e := events[index];
    if e.subjectId != events[0].subjectId then Some(MixedSubjects)
    else if e.sanitizedPayload == None then Some(MissingPayload)
    else if h.payload(e.sanitizedPayload.value) != e.payloadHash then Some(PayloadHashMismatch)
    else if e.previousHash != PreviousAt(events, index) then Some(PreviousHashMismatch)
    else if h.event(HashInput(e)) != e.eventHash then Some(EventHashMismatch)
    else None
  }

  ghost predicate ValidChain(h: Hasher, events: seq<AuditEvent>) {
    forall i :: 0 <= i < |events| ==> CheckAt(h, events, i) == None
  }

  method ValidateAuditChain(h: Hasher, events: seq<AuditEvent>) returns (r: ChainValidation)
    ensures r.Valid? <==> ValidChain(h, events)
    ensures r.Invalid? ==>
      && r.index < |events| && CheckAt(h, events, r.index) == Some(r.reason)
      && forall i :: 0 <= i < r.index ==> CheckAt(h, events, i) == None
  {
    if |events| == 0 { return Valid; }
    var subjectId := events[0].subjectId;
    var previousHash: Option<Digest> := None;
    for index := 0 to |events|
      invariant forall i :: 0 <= i < index ==> CheckAt(h, events, i) == None
      invariant index < |events| ==> previousHash == PreviousAt(events, index)
    {
      var event := events[index];
      ghost var check := CheckAt(h, events, index);
      if event.subjectId != subjectId { return Invalid(index, MixedSubjects); }
      if event.sanitizedPayload == None { return Invalid(index, MissingPayload); }
      if h.payload(event.sanitizedPayload.value) != event.payloadHash {
        return Invalid(index, PayloadHashMismatch);
      }
      if event.previousHash != previousHash { return Invalid(index, PreviousHashMismatch); }
      if h.event(HashInput(event)) != event.eventHash { return Invalid(index, EventHashMismatch); }
      previousHash := Some(event.eventHash);
    }
    return Valid;
  }

  // ---------- What a validated chain proves ----------

  lemma ValidChainLinked(h: Hasher, events: seq<AuditEvent>)
    requires ValidChain(h, events)
    ensures Linked(events)
  {
    forall i | 0 <= i < |events| ensures LinkAt(events, i) {
      assert CheckAt(h, events, i) == None;
    }
  }

  lemma {:induction false} ValidHashesDiffer(h: Hasher, events: seq<AuditEvent>, i: nat, j: nat)
    requires h.CollisionFree() && ValidChain(h, events) && i < j < |events|
    ensures events[i].eventHash != events[j].eventHash
  {
    if events[i].eventHash == events[j].eventHash {
      assert CheckAt(h, events, i) == None && CheckAt(h, events, j) == None;
      assert HashInput(events[i]) == HashInput(events[j]);
      assert i > 0;
      ValidHashesDiffer(h, events, i - 1, j - 1);
    }
  }

  /** A validated chain needs no uniqueness constraint: its hashes differ, so from any load order its
      rows rebuild to it and to nothing else. */
  lemma ValidChainRebuilds(h: Hasher, events: seq<AuditEvent>, loaded: seq<AuditEvent>)
    requires h.CollisionFree() && ValidChain(h, events) && multiset(loaded) == multiset(events)
    ensures DistinctHashes(events) && Linked(events) && OrderChain(loaded) == Ok(events)
  {
    ValidChainLinked(h, events);
    forall i, j | 0 <= i < j < |events| ensures events[i].eventHash != events[j].eventHash {
      ValidHashesDiffer(h, events, i, j);
    }
    DistinctHashesPermuted(events, loaded);
    OrderChainComplete(loaded, events);
  }

  /** Tamper evidence: the hash of the tip fixes the whole history, payloads and length included. */
  lemma {:induction false} TipFixesHistory(h: Hasher, a: seq<AuditEvent>, b: seq<AuditEvent>)
    requires h.CollisionFree() && ValidChain(h, a) && ValidChain(h, b)
    requires |a| > 0 && |b| > 0 && a[|a| - 1].eventHash == b[|b| - 1].eventHash
    ensures a == b
  {
    var a', b' := a[..|a| - 1], b[..|b| - 1];
    var x, y := a[|a| - 1], b[|b| - 1];
    assert CheckAt(h, a, |a| - 1) == None && CheckAt(h, b, |b| - 1) == None;
    assert HashInput(x) == HashInput(y);
    assert x == y;
    assert x.previousHash == PreviousAt(a, |a| - 1) == PreviousAt(b, |b| - 1);
    if |a| > 1 {
      ValidChainPrefix(h, a);
      ValidChainPrefix(h, b);
      TipFixesHistory(h, a', b');
    }
    assert a == a' + [x] && b == b' + [y];
  }

  lemma ValidChainPrefix(h: Hasher, events: seq<AuditEvent>)
    requires ValidChain(h, events) && |events| > 0
    ensures ValidChain(h, events[..|events| - 1])
  {
    var p := events[..|events| - 1];
    forall i | 0 <= i < |p| ensures CheckAt(h, p, i) == None {
      assert CheckAt(h, events, i) == None;
      assert PreviousAt(p, i) == PreviousAt(events, i);
    }
  }

  /** Two tables whose rows rebuild and validate to the same tip hold the same rows. */
  lemma TipFixesRows(h: Hasher, rows: seq<AuditEvent>, others: seq<AuditEvent>)
    requires h.CollisionFree() && DistinctHashes(rows) && DistinctHashes(others)
    requires OrderChain(rows).Ok? && ValidChain(h, OrderChain(rows).value)
    requires OrderChain(others).Ok? && ValidChain(h, OrderChain(others).value)
    requires |rows| > 0 && |others| > 0
    requires var a, b := OrderChain(rows).value, OrderChain(others).value;
      |a| > 0 && |b| > 0 && a[|a| - 1].eventHash == b[|b| - 1].eventHash
    ensures multiset(rows) == multiset(others)
  {
    OrderChainSound(rows);
    OrderChainSound(others);
    TipFixesHistory(h, OrderChain(rows).value, OrderChain(others).value);
  }

  /** Appending an event linked to the tip and hashed as the ledger does keeps the chain valid. */
  lemma ValidChainExtends(h: Hasher, chain: seq<AuditEvent>, e: AuditEvent)
    requires ValidChain(h, chain)
    requires chain != [] ==> e.subjectId == chain[0].subjectId
    requires e.sanitizedPayload.Some? && h.payload(e.sanitizedPayload.value) == e.payloadHash
    requires e.previousHash == if chain == [] then None else Some(chain[|chain| - 1].eventHash)
    requires e.eventHash == h.event(HashInput(e))
    ensures ValidChain(h, chain + [e])
  {
    var c := chain + [e];
    forall i | 0 <= i < |c| ensures CheckAt(h, c, i) == None {
      assert PreviousAt(c, i) == if i < |chain| then PreviousAt(chain, i) else e.previousHash;
      if i < |chain| { assert CheckAt(h, chain, i) == None; }
    }
  }
}
