/** Causal positions and the order of the public timeline (ledger/service.ts). */
module Timeline {
  import opened Common
  import opened AuditEvents
  import opened HashChain

  function EventsOf(events: seq<AuditEvent>, subjectId: Id): (r: seq<AuditEvent>)
    ensures forall e :: e in r <==> e in events && e.subjectId == subjectId
  {
    Filter(events, (e: AuditEvent) => e.subjectId == subjectId)
  }

  /** Several subjects' rows, mixed in any order, each of which rebuilds to a chain. */
  ghost predicate WellChained(events: seq<AuditEvent>) {
    && DistinctHashes(events)
    && forall s :: OrderChain(EventsOf(events, s)).Ok?
  }

  ghost function ChainOf(events: seq<AuditEvent>, subjectId: Id): seq<AuditEvent>
    requires WellChained(events)
  {
    OrderChain(EventsOf(events, subjectId)).value
  }

  ghost predicate IsIndex(events: seq<AuditEvent>, e: AuditEvent, i: nat)
    requires WellChained(events)
  {
    var c := ChainOf(events, e.subjectId);
    i < |c| && c[i] == e
  }

  lemma {:induction false} FilterKeepsDistinct(events: seq<AuditEvent>, subjectId: Id)
    requires DistinctHashes(events)
    ensures DistinctHashes(EventsOf(events, subjectId))
  {
    if events != [] {
      var init, last := events[..|events| - 1], events[|events| - 1];
      assert events == init + [last];
      FilterAppend(init, last, (e: AuditEvent) => e.subjectId == subjectId);
      FilterKeepsDistinct(init, subjectId);
    }
  }

  lemma ChainOfProperties(events: seq<AuditEvent>, subjectId: Id)
    requires WellChained(events)
    ensures var c := ChainOf(events, subjectId);
      && DistinctHashes(c) && Linked(c)
      && forall e :: e in c <==> e in events && e.subjectId == subjectId
  {
    var rows := EventsOf(events, subjectId);
    FilterKeepsDistinct(events, subjectId);
    OrderChainSound(rows);
    DistinctHashesPermuted(rows, ChainOf(events, subjectId));
    SameMembers(rows, ChainOf(events, subjectId));
  }

  lemma IndexExists(events: seq<AuditEvent>, e: AuditEvent)
    requires WellChained(events) && e in events
    ensures exists i :: IsIndex(events, e, i)
  {
    ChainOfProperties(events, e.subjectId);
    var c := ChainOf(events, e.subjectId);
    var i :| 0 <= i < |c| && c[i] == e;
    assert IsIndex(events, e, i);
  }

  lemma IndexUnique(events: seq<AuditEvent>, e: AuditEvent, i: nat, j: nat)
    requires WellChained(events) && IsIndex(events, e, i) && IsIndex(events, e, j)
    ensures i == j
  {
    ChainOfProperties(events, e.subjectId);
  }

  /** Where an event sits in the rebuilt chain of its subject. */
  ghost function Index(events: seq<AuditEvent>, e: AuditEvent): (i: nat)
    requires WellChained(events) && e in events
    ensures IsIndex(events, e, i)
  {
    IndexExists(events, e);
    var i: nat :| IsIndex(events, e, i);
    i
  }

  /** A root has no previous row; any other event's previous row is one step before it in its chain. */
  lemma PreviousIndex(events: seq<AuditEvent>, e: AuditEvent)
    requires WellChained(events) && e in events
    ensures Index(events, e) == 0 <==> e.previousHash == None
    ensures e.previousHash.Some? ==> exists p :: p in events && e.previousHash == Some(p.eventHash)
    ensures forall p :: p in events && e.previousHash == Some(p.eventHash) ==>
              p.subjectId == e.subjectId && Index(events, p) + 1 == Index(events, e)
  {
    var c, i := ChainOf(events, e.subjectId), Index(events, e);
    ChainOfProperties(events, e.subjectId);
    assert LinkAt(c, i);
    if i > 0 {
      var q := c[i - 1];
      assert q in c && q in events && IsIndex(events, q, i - 1);
      IndexUnique(events, q, i - 1, Index(events, q));
      forall p | p in events && e.previousHash == Some(p.eventHash) ensures p == q {
        DistinctHashesSame(events, p, q);
      }
    }
  }

  // ---------- chainPositions ----------

  function ByHash(events: seq<AuditEvent>): (m: map<Digest, AuditEvent>)
    ensures forall d :: d in m ==> m[d] in events && m[d].eventHash == d
    ensures forall e :: e in events ==> e.eventHash in m
  {
    if events == [] then map[]
    else
      assert events == events[..|events| - 1] + [events[|events| - 1]];
      ByHash(events[..|events| - 1])[events[|events| - 1].eventHash := events[|events| - 1]]
  }

  /** Every memoised position is the event's index in its rebuilt chain. */
  ghost predicate Correct(events: seq<AuditEvent>, positions: map<Digest, nat>) {
    WellChained(events) ==> forall e :: e in events && e.eventHash in positions ==>
      positions[e.eventHash] == Index(events, e)
  }

  /** Everything visited so far lies further along the chain than `event`. */
  ghost predicate VisitedAbove(events: seq<AuditEvent>, event: AuditEvent, visited: set<Digest>)
    requires event in events
  {
    WellChained(events) ==> forall e :: e in events && e.eventHash in visited ==>
      e.subjectId == event.subjectId && Index(events, e) > Index(events, event)
  }

  lemma VisitPrevious(events: seq<AuditEvent>, event: AuditEvent, previous: AuditEvent, visited: set<Digest>)
    requires event in events && previous in events && event.previousHash == Some(previous.eventHash)
    requires VisitedAbove(events, event, visited)
    ensures VisitedAbove(events, previous, visited + {event.eventHash})
  {
    if WellChained(events) {
      PreviousIndex(events, event);
      forall e | e in events && e.eventHash == event.eventHash ensures e == event {
        DistinctHashesSame(events, e, event);
      }
    }
  }

  lemma NothingVisited(events: seq<AuditEvent>, event: AuditEvent)
    requires event in events
    ensures VisitedAbove(events, event, {})
  {
  }

  lemma AllRanked(events: seq<AuditEvent>, positions: map<Digest, nat>)
    requires Correct(events, positions) && WellChained(events)
    requires forall j :: 0 <= j < |events| ==> events[j].eventHash in positions
    ensures forall e :: e in events ==> e.eventHash in positions && positions[e.eventHash] == Index(events, e)
  {
  }

  lemma Memoise(events: seq<AuditEvent>, positions: map<Digest, nat>, event: AuditEvent, n: nat)
    requires Correct(events, positions) && event in events
    requires WellChained(events) ==> n == Index(events, event)
    ensures Correct(events, positions[event.eventHash := n])
  {
    if WellChained(events) {
      forall e | e in events && e.eventHash == event.eventHash ensures e == event {
        DistinctHashesSame(events, e, event);
      }
    }
  }

  class ChainPositions {
    const byHash: map<Digest, AuditEvent>
    ghost const events: seq<AuditEvent>
    var positions: map<Digest, nat>

    ghost predicate Valid()
      reads this
    {
      byHash == ByHash(events) && Correct(events, positions)
    }

    constructor (events: seq<AuditEvent>)
      ensures Valid() && this.events == events && positions == map[]
    {
      byHash := ByHash(events);
      this.events := events;
      positions := map[];
    }

    method Position(event: AuditEvent, visited: set<Digest>) returns (position: nat)
      requires Valid() && event in events && VisitedAbove(events, event, visited)
      modifies this
      ensures Valid() && old(positions).Keys <= positions.Keys
      ensures WellChained(events) ==> position == Index(events, event) && event.eventHash in positions
      decreases byHash.Keys - visited
    {
      if event.eventHash in positions { return positions[event.eventHash]; }
      if event.eventHash in visited { return 0; }
      var visited' := visited + {event.eventHash};
      assert byHash.Keys - visited' < byHash.Keys - visited by {
        assert event.eventHash in byHash.Keys - visited;
      }
      var calculated := 0;
      if WellChained(events) { PreviousIndex(events, event); }
      if event.previousHash.Some? && event.previousHash.value in byHash {
        var previous := byHash[event.previousHash.value];
        if previous.subjectId == event.subjectId {
          VisitPrevious(events, event, previous, visited);
          var before := Position(previous, visited');
          calculated := before + 1;
        }
      }
      Memoise(events, positions, event, calculated);
      positions := positions[event.eventHash := calculated];
      return calculated;
    }
  }

  /** The memoised recursion ranks every event by its place in its subject's rebuilt chain, whatever
      order the rows are visited in and even though one pass mixes several subjects. */
  method ComputeChainPositions(events: seq<AuditEvent>) returns (positions: map<Digest, nat>)
    ensures WellChained(events) ==> forall e :: e in events ==>
      e.eventHash in positions && positions[e.eventHash] == Index(events, e)
  {
    hide WellChained, Correct, VisitedAbove;
    var memo := new ChainPositions(events);
    ghost var wellChained := WellChained(events);
    for i := 0 to |events|
      invariant memo.Valid() && memo.events == events && fresh(memo)
      invariant wellChained ==> forall j :: 0 <= j < i ==> events[j].eventHash in memo.positions
    {
      NothingVisited(events, events[i]);
      var position := memo.Position(events[i], {});
    }
    if wellChained { AllRanked(events, memo.positions); }
    return memo.positions;
  }

  // ---------- The comparator of getTimeline ----------

  /** `collate` ranks event ids the way `localeCompare` does. */
  function Compare(position: AuditEvent -> nat, collate: Id -> int, left: AuditEvent, right: AuditEvent): int {
    if left.subjectId == right.subjectId && position(left) != position(right) then
      position(left) - position(right)
    else if left.recordedAt != right.recordedAt then left.recordedAt - right.recordedAt
    else collate(left.eventId) - collate(right.eventId)
  }

  /** The order by time, then id, that the comparator falls back to. */
  ghost predicate KeyBefore(collate: Id -> int, left: AuditEvent, right: AuditEvent) {
    || left.recordedAt < right.recordedAt
    || (left.recordedAt == right.recordedAt && collate(left.eventId) < collate(right.eventId))
  }

  ghost predicate Before(position: AuditEvent -> nat, collate: Id -> int, left: AuditEvent, right: AuditEvent) {
    Compare(position, collate, left, right) < 0
  }

  ghost predicate DistinctKeys(position: AuditEvent -> nat, collate: Id -> int, events: set<AuditEvent>) {
    forall a, b :: a in events && b in events && a != b ==>
      && collate(a.eventId) != collate(b.eventId)
      && (a.subjectId == b.subjectId ==> position(a) != position(b))
  }

  ghost predicate TransitiveOn(position: AuditEvent -> nat, collate: Id -> int, events: set<AuditEvent>) {
    forall a, b, c | a in events && b in events && c in events
      && Before(position, collate, a, b) && Before(position, collate, b, c)
      :: Before(position, collate, a, c)
  }

  /** `a` causally precedes `b`, yet carries a later key, and an event of another subject falls between. */
  ghost predicate Straddles(position: AuditEvent -> nat, collate: Id -> int, a: AuditEvent, b: AuditEvent, c: AuditEvent) {
    && a.subjectId == b.subjectId && c.subjectId != a.subjectId
    && position(a) < position(b)
    && KeyBefore(collate, b, c) && KeyBefore(collate, c, a)
  }

  /** The comparator is a strict total order exactly when no event of another subject falls between the
      keys of two causally ordered events recorded against their order. */
  lemma TransitiveExactly(position: AuditEvent -> nat, collate: Id -> int, events: set<AuditEvent>)
    requires DistinctKeys(position, collate, events)
    ensures forall a, b :: a in events && b in events && a != b ==>
              (Before(position, collate, a, b) <==> !Before(position, collate, b, a))
    ensures TransitiveOn(position, collate, events)
       <==> !exists a, b, c :: a in events && b in events && c in events && Straddles(position, collate, a, b, c)
  {
    if a, b, c :| a in events && b in events && c in events && Straddles(position, collate, a, b, c) {
      assert Before(position, collate, a, b) && Before(position, collate, b, c) && Before(position, collate, c, a);
      assert !Before(position, collate, a, c);
    } else {
      forall a, b, c | a in events && b in events && c in events
        && Before(position, collate, a, b) && Before(position, collate, b, c)
        ensures Before(position, collate, a, c)
      {
        assert !Straddles(position, collate, a, b, c);
        assert !Straddles(position, collate, b, c, a);
        assert !Straddles(position, collate, c, a, b);
      }
    }
  }

  /** When times strictly increase along each chain the comparator is the plain order by time and id. */
  lemma IncreasingTimesNeverStraddle(position: AuditEvent -> nat, collate: Id -> int, events: set<AuditEvent>)
    requires DistinctKeys(position, collate, events)
    requires forall a, b :: a in events && b in events && a.subjectId == b.subjectId && position(a) < position(b)
               ==> a.recordedAt < b.recordedAt
    ensures TransitiveOn(position, collate, events)
    ensures forall a, b :: a in events && b in events && a != b ==>
              (Before(position, collate, a, b) <==> KeyBefore(collate, a, b))
  {
    TransitiveExactly(position, collate, events);
  }

  ghost predicate SortedTimeline(position: AuditEvent -> nat, collate: Id -> int, timeline: seq<AuditEvent>) {
    forall i, j :: 0 <= i < j < |timeline| ==> Before(position, collate, timeline[i], timeline[j])
  }

  /** Sorted by the comparator, a timeline lists every subject's events in the order of its chain. */
  lemma SortedKeepsChains(events: seq<AuditEvent>, position: AuditEvent -> nat, collate: Id -> int,
                          timeline: seq<AuditEvent>, subjectId: Id)
    requires WellChained(events) && multiset(timeline) == multiset(events)
    requires forall e :: e in events ==> position(e) == Index(events, e)
    requires SortedTimeline(position, collate, timeline)
    ensures EventsOf(timeline, subjectId) == ChainOf(events, subjectId)
  {
    var c, mine := ChainOf(events, subjectId), EventsOf(timeline, subjectId);
    SubjectEventsMatch(events, timeline, subjectId);
    FilterKeepsSorted(position, collate, timeline, subjectId);
    var ranks := seq(|mine|, k requires 0 <= k < |mine| => position(mine[k]));
    forall i | 0 <= i < |mine| ensures ranks[i] < |c| && c[ranks[i]] == mine[i] {
      assert mine[i] in mine;
    }
    forall i, j | 0 <= i < j < |mine| ensures ranks[i] < ranks[j] {
      assert Before(position, collate, mine[i], mine[j]);
      assert mine[i] in mine && mine[j] in mine;
      assert mine[i] != mine[j];
    }
    forall i | 0 <= i < |mine| ensures mine[i] == c[i] {
      IncreasingBelow(ranks, |c|, i);
    }
  }

  lemma SubjectEventsMatch(events: seq<AuditEvent>, timeline: seq<AuditEvent>, subjectId: Id)
    requires WellChained(events) && multiset(timeline) == multiset(events)
    ensures var c, mine := ChainOf(events, subjectId), EventsOf(timeline, subjectId);
      && |mine| == |c| && NoDuplicates(mine)
      && forall e :: e in mine <==> e in events && e.subjectId == subjectId
  {
    var c, mine := ChainOf(events, subjectId), EventsOf(timeline, subjectId);
    ChainOfProperties(events, subjectId);
    SameMembers(timeline, events);
    DistinctHashesPermuted(events, timeline);
    FilterKeepsDistinct(timeline, subjectId);
    assert NoDuplicates(mine) && NoDuplicates(c);
    NoDuplicatesCardinality(mine);
    NoDuplicatesCardinality(c);
    assert (set e | e in mine) == (set e | e in c);
  }

  lemma {:induction false} FilterKeepsSorted(position: AuditEvent -> nat, collate: Id -> int, t: seq<AuditEvent>, subjectId: Id)
    requires SortedTimeline(position, collate, t)
    ensures SortedTimeline(position, collate, EventsOf(t, subjectId))
  {
    if t != [] {
      var init, last := t[..|t| - 1], t[|t| - 1];
      assert t == init + [last];
      FilterAppend(init, last, (e: AuditEvent) => e.subjectId == subjectId);
      FilterKeepsSorted(position, collate, init, subjectId);
      forall e | e in init ensures Before(position, collate, e, last) {
        var i :| 0 <= i < |init| && t[i] == e;
      }
      var mine := EventsOf(init, subjectId);
      assert forall i :: 0 <= i < |mine| ==> mine[i] in init;
    }
  }

  /** `n` strictly increasing numbers below `n` are 0, 1, ..., n - 1. */
  lemma {:induction false} IncreasingBelow(s: seq<nat>, n: nat, i: nat)
    requires |s| == n && i < n
    requires forall j, k :: 0 <= j < k < n ==> s[j] < s[k]
    requires forall j :: 0 <= j < n ==> s[j] < n
    ensures s[i] == i
  {
    AtLeastIndex(s, i);
    AtMostIndex(s, n, i);
  }

  lemma {:induction false} AtLeastIndex(s: seq<nat>, i: nat)
    requires i < |s| && forall j, k :: 0 <= j < k < |s| ==> s[j] < s[k]
    ensures s[i] >= i
  {
    if i > 0 { AtLeastIndex(s, i - 1); }
  }

  lemma {:induction false} AtMostIndex(s: seq<nat>, n: nat, i: nat)
    requires |s| == n && i < n && forall j, k :: 0 <= j < k < |s| ==> s[j] < s[k]
    requires forall j :: 0 <= j < n ==> s[j] < n
    ensures s[i] <= i
    decreases n - i
  {
    if i < n - 1 { AtMostIndex(s, n, i + 1); }
  }
}
