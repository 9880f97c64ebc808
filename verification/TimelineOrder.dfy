/** When the timeline's sort has an answer, that the answer is unique, and that it keeps every chain, from
    the rows that a run of appends leaves behind to the sorted timeline (ledger/service.ts). */
module TimelineOrder {
  import opened Common
  import opened AuditEvents
  import opened HashChain
  import opened Ledger
  import opened Timeline

  /** What is left when a comparison sort stops: no neighbours out of order. */
  ghost predicate NeighboursInOrder(position: AuditEvent -> nat, collate: Id -> int, t: seq<AuditEvent>) {
    forall i, j :: 0 <= i < j == i + 1 < |t| ==> Compare(position, collate, t[i], t[j]) <= 0
  }

  ghost predicate DistinctIds(collate: Id -> int, events: set<AuditEvent>) {
    forall a, b :: a in events && b in events && a != b ==> collate(a.eventId) != collate(b.eventId)
  }

  ghost predicate AnyStraddles(position: AuditEvent -> nat, collate: Id -> int, events: set<AuditEvent>) {
    exists a, b, c :: a in events && b in events && c in events && Straddles(position, collate, a, b, c)
  }

  ghost predicate HasSortedOrder(position: AuditEvent -> nat, collate: Id -> int, events: seq<AuditEvent>) {
    exists t :: multiset(t) == multiset(events) && SortedTimeline(position, collate, t)
  }

  // ---------- Sorting by a strict total order ----------

  /** Without neighbours out of order no two events at all are out of order. */
  lemma {:induction false} NeighboursSuffice(position: AuditEvent -> nat, collate: Id -> int, t: seq<AuditEvent>, i: nat, j: nat)
    requires i < j < |t| && NoDuplicates(t)
    requires DistinctKeys(position, collate, set e | e in t) && TransitiveOn(position, collate, set e | e in t)
    requires NeighboursInOrder(position, collate, t)
    ensures Before(position, collate, t[i], t[j])
    decreases j - i
  {
    var k := j - 1;
    assert t[k] in t && t[j] in t && t[k] != t[j];
    assert Before(position, collate, t[k], t[j]);
    if i < k {
      NeighboursSuffice(position, collate, t, i, k);
      assert t[i] in t;
    }
  }

  lemma FirstPrecedes(position: AuditEvent -> nat, collate: Id -> int, t: seq<AuditEvent>, x: AuditEvent)
    requires SortedTimeline(position, collate, t) && x in t
    ensures x == t[0] || Before(position, collate, t[0], x)
  {
    var i :| 0 <= i < |t| && t[i] == x;
    assert i > 0 ==> Before(position, collate, t[0], t[i]);
  }

  lemma {:induction false} SortedIsUnique(position: AuditEvent -> nat, collate: Id -> int, t: seq<AuditEvent>, u: seq<AuditEvent>)
    requires multiset(t) == multiset(u)
    requires SortedTimeline(position, collate, t) && SortedTimeline(position, collate, u)
    ensures t == u
  {
    hide Before;
    SameMembers(t, u);
    if t == [] {
    } else {
      SameFirst(position, collate, t, u);
      RestMultiset(t);
      RestMultiset(u);
      RestSorted(position, collate, t);
      RestSorted(position, collate, u);
      SortedIsUnique(position, collate, t[1..], u[1..]);
      assert t == [t[0]] + t[1..] && u == [u[0]] + u[1..];
    }
  }

  lemma SameFirst(position: AuditEvent -> nat, collate: Id -> int, t: seq<AuditEvent>, u: seq<AuditEvent>)
    requires t != [] && u != [] && forall x :: x in t <==> x in u
    requires SortedTimeline(position, collate, t) && SortedTimeline(position, collate, u)
    ensures t[0] == u[0]
  {
    assert u[0] in u && t[0] in t;
    FirstPrecedes(position, collate, t, u[0]);
    FirstPrecedes(position, collate, u, t[0]);
  }

  lemma RestMultiset(t: seq<AuditEvent>)
    requires t != []
    ensures multiset(t[1..]) == multiset(t) - multiset{t[0]}
  {
    assert t == [t[0]] + t[1..];
  }

  lemma RestSorted(position: AuditEvent -> nat, collate: Id -> int, t: seq<AuditEvent>)
    requires t != [] && SortedTimeline(position, collate, t)
    ensures SortedTimeline(position, collate, t[1..])
  {
    hide Before;
    assert forall i :: 0 <= i < |t| - 1 ==> t[1..][i] == t[i + 1];
  }

  ghost function Insert(position: AuditEvent -> nat, collate: Id -> int, e: AuditEvent, t: seq<AuditEvent>)
    : (r: seq<AuditEvent>)
    ensures multiset(r) == multiset(t) + multiset{e}
  {
    if t == [] || Before(position, collate, e, t[0]) then [e] + t
    else
      assert t == [t[0]] + t[1..];
      [t[0]] + Insert(position, collate, e, t[1..])
  }

  lemma {:induction false} InsertKeepsSorted(position: AuditEvent -> nat, collate: Id -> int, e: AuditEvent,
                                             t: seq<AuditEvent>, events: set<AuditEvent>)
    requires DistinctKeys(position, collate, events) && TransitiveOn(position, collate, events)
    requires e in events && e !in t && forall x :: x in t ==> x in events
    requires SortedTimeline(position, collate, t)
    ensures SortedTimeline(position, collate, Insert(position, collate, e, t))
  {
    if t != [] {
      var rest := t[1..];
      assert t == [t[0]] + rest && t[0] in t;
      forall x | x in rest ensures Before(position, collate, t[0], x) {
        FirstPrecedes(position, collate, t, x);
        RestMultiset(t);
      }
      if Before(position, collate, e, t[0]) {
        forall x | x in t ensures Before(position, collate, e, x) { }
        PrependSorted(position, collate, e, t);
      } else {
        RestSorted(position, collate, t);
        InsertKeepsSorted(position, collate, e, rest, events);
        var r := Insert(position, collate, e, rest);
        forall x | x in r ensures Before(position, collate, t[0], x) {
          assert x in multiset(r);
        }
        PrependSorted(position, collate, t[0], r);
      }
    }
  }

  lemma PrependSorted(position: AuditEvent -> nat, collate: Id -> int, e: AuditEvent, t: seq<AuditEvent>)
    requires SortedTimeline(position, collate, t)
    requires forall x :: x in t ==> Before(position, collate, e, x)
    ensures SortedTimeline(position, collate, [e] + t)
  {
    hide Before;
  }

  lemma {:induction false} SortedExists(position: AuditEvent -> nat, collate: Id -> int, s: seq<AuditEvent>, events: set<AuditEvent>)
    requires NoDuplicates(s) && forall x :: x in s ==> x in events
    requires DistinctKeys(position, collate, events) && TransitiveOn(position, collate, events)
    ensures HasSortedOrder(position, collate, s)
  {
    if s == [] {
      assert SortedTimeline(position, collate, s);
    } else {
      var init, last := s[..|s| - 1], s[|s| - 1];
      assert s == init + [last];
      SortedExists(position, collate, init, events);
      var t :| multiset(t) == multiset(init) && SortedTimeline(position, collate, t);
      SameMembers(t, init);
      InsertKeepsSorted(position, collate, last, t, events);
      assert multiset(Insert(position, collate, last, t)) == multiset(s);
    }
  }

  /** A sorted timeline has no cycle of three. */
  lemma SortedHasNoCycle(position: AuditEvent -> nat, collate: Id -> int, t: seq<AuditEvent>,
                         a: AuditEvent, b: AuditEvent, c: AuditEvent)
    requires SortedTimeline(position, collate, t) && a in t && b in t && c in t
    requires Before(position, collate, a, b) && Before(position, collate, b, c)
    ensures !Before(position, collate, c, a)
  {
    var i :| 0 <= i < |t| && t[i] == a;
    var j :| 0 <= j < |t| && t[j] == b;
    var k :| 0 <= k < |t| && t[k] == c;
    assert i < j && j < k;
    assert Before(position, collate, t[i], t[k]);
  }

  /** A straddling triple is such a cycle. */
  lemma SortedNeverStraddles(position: AuditEvent -> nat, collate: Id -> int, t: seq<AuditEvent>,
                             a: AuditEvent, b: AuditEvent, c: AuditEvent)
    requires SortedTimeline(position, collate, t) && a in t && b in t && c in t
    ensures !Straddles(position, collate, a, b, c)
  {
    if Before(position, collate, a, b) && Before(position, collate, b, c) {
      SortedHasNoCycle(position, collate, t, a, b, c);
    }
  }

  // ---------- The timeline ----------

  lemma KeysOfChains(events: seq<AuditEvent>, position: AuditEvent -> nat, collate: Id -> int)
    requires WellChained(events) && DistinctIds(collate, set e | e in events)
    requires forall e :: e in events ==> position(e) == Index(events, e)
    ensures NoDuplicates(events) && DistinctKeys(position, collate, set e | e in events)
  {
    forall a, b | a in events && b in events && a != b && a.subjectId == b.subjectId ensures position(a) != position(b) {
      assert IsIndex(events, a, position(a)) && IsIndex(events, b, position(b));
    }
  }

  /** The rows of a timeline can be sorted by the comparator exactly when nothing straddles. Then every way of
      leaving no neighbours out of order is that one sorted timeline, and it lists every subject in chain order. */
  lemma TimelineExactly(events: seq<AuditEvent>, position: AuditEvent -> nat, collate: Id -> int)
    requires WellChained(events) && DistinctIds(collate, set e | e in events)
    requires forall e :: e in events ==> position(e) == Index(events, e)
    ensures HasSortedOrder(position, collate, events) <==> !AnyStraddles(position, collate, set e | e in events)
    ensures !AnyStraddles(position, collate, set e | e in events) ==>
      forall t :: multiset(t) == multiset(events) && NeighboursInOrder(position, collate, t) ==>
        && SortedTimeline(position, collate, t)
        && (forall s :: EventsOf(t, s) == ChainOf(events, s))
        && (forall u :: multiset(u) == multiset(events) && NeighboursInOrder(position, collate, u) ==> u == t)
  {
    hide WellChained, Straddles, Before, SortedTimeline, NeighboursInOrder, TransitiveOn;
    var all := set e | e in events;
    KeysOfChains(events, position, collate);
    TransitiveExactly(position, collate, all);
    if AnyStraddles(position, collate, all) {
      StraddlingNeverSorted(events, position, collate);
    } else {
      SortedExists(position, collate, events, all);
      forall t | multiset(t) == multiset(events) && NeighboursInOrder(position, collate, t)
        ensures SortedTimeline(position, collate, t)
        ensures forall s :: EventsOf(t, s) == ChainOf(events, s)
        ensures forall u :: multiset(u) == multiset(events) && NeighboursInOrder(position, collate, u) ==> u == t
      {
        StopsSorted(events, position, collate, t);
        forall s ensures EventsOf(t, s) == ChainOf(events, s) {
          SortedKeepsChains(events, position, collate, t, s);
        }
        forall u | multiset(u) == multiset(events) && NeighboursInOrder(position, collate, u) ensures u == t {
          StopsSorted(events, position, collate, u);
          SortedIsUnique(position, collate, t, u);
        }
      }
    }
  }

  lemma StraddlingNeverSorted(events: seq<AuditEvent>, position: AuditEvent -> nat, collate: Id -> int)
    requires AnyStraddles(position, collate, set e | e in events)
    ensures !HasSortedOrder(position, collate, events)
  {
    hide Straddles, SortedTimeline;
    var a, b, c :| a in events && b in events && c in events && Straddles(position, collate, a, b, c);
    forall t | multiset(t) == multiset(events) ensures !SortedTimeline(position, collate, t) {
      SameMembers(t, events);
      if SortedTimeline(position, collate, t) { SortedNeverStraddles(position, collate, t, a, b, c); }
    }
  }

  lemma StopsSorted(events: seq<AuditEvent>, position: AuditEvent -> nat, collate: Id -> int, t: seq<AuditEvent>)
    requires NoDuplicates(events) && multiset(t) == multiset(events)
    requires DistinctKeys(position, collate, set e | e in events) && TransitiveOn(position, collate, set e | e in events)
    requires NeighboursInOrder(position, collate, t)
    ensures SortedTimeline(position, collate, t)
  {
    SameMembers(t, events);
    assert (set e | e in t) == (set e | e in events);
    assert NoDuplicates(t) by {
      NoDuplicatesMultiset(events);
      forall i, j | 0 <= i < j < |t| ensures t[i] != t[j] { OccursTwice(t, i, j); }
    }
    forall i, j | 0 <= i < j < |t| ensures Before(position, collate, t[i], t[j]) {
      NeighboursSuffice(position, collate, t, i, j);
    }
  }

  // ---------- From the ledger's rows ----------

  /** The rows of the chosen subjects, in any order. */
  ghost predicate Loads(rows: seq<AuditRow>, subjects: set<Id>, events: seq<AuditEvent>) {
    forall s :: multiset(EventsOf(events, s)) == multiset(if s in subjects then SubjectEvents(rows, s) else [])
  }

  lemma {:induction false} FilterMultiplicity(events: seq<AuditEvent>, e: AuditEvent)
    ensures multiset(EventsOf(events, e.subjectId))[e] == multiset(events)[e]
  {
    if events != [] {
      var init, last := events[..|events| - 1], events[|events| - 1];
      assert events == init + [last];
      FilterAppend(init, last, (x: AuditEvent) => x.subjectId == e.subjectId);
      FilterMultiplicity(init, e);
    }
  }

  /** A loaded event is the event of one of the rows. */
  lemma LoadedRow(h: Hasher, rows: seq<AuditRow>, subjects: set<Id>, events: seq<AuditEvent>, e: AuditEvent)
    requires LedgerInv(h, rows) && Loads(rows, subjects, events) && e in events
    ensures e.subjectId in subjects && exists k :: 0 <= k < |rows| && rows[k].event == e
  {
    hide ValidChain;
    var s := e.subjectId;
    SameMembers(EventsOf(events, s), if s in subjects then SubjectEvents(rows, s) else []);
    assert e in EventsOf(events, s);
    var k :| 0 <= k < |rows| && StoredEvent(rows[k]) == e;
    assert FaithfulRow(h, rows[k]);
  }

  lemma LoadedAreDistinct(h: Hasher, rows: seq<AuditRow>, subjects: set<Id>, events: seq<AuditEvent>)
    requires LedgerInv(h, rows) && Loads(rows, subjects, events)
    ensures DistinctHashes(events)
    ensures forall a, b :: a in events && b in events && a != b ==> a.eventId != b.eventId
  {
    hide FaithfulRow, ValidChain, Loads;
    forall a, b | a in events && b in events && (a.eventHash == b.eventHash || a.eventId == b.eventId) ensures a == b {
      LoadedRow(h, rows, subjects, events, a);
      LoadedRow(h, rows, subjects, events, b);
    }
    forall i, j | 0 <= i < j < |events| ensures events[i] != events[j] {
      OccursTwice(events, i, j);
      OccursOnce(h, rows, subjects, events, events[i]);
    }
    forall i, j | 0 <= i < j < |events| ensures events[i].eventHash != events[j].eventHash {
      assert events[i] in events && events[j] in events && events[i] != events[j];
    }
  }

  lemma OccursOnce(h: Hasher, rows: seq<AuditRow>, subjects: set<Id>, events: seq<AuditEvent>, e: AuditEvent)
    requires LedgerInv(h, rows) && Loads(rows, subjects, events) && e in events
    ensures multiset(events)[e] == 1
  {
    hide FaithfulRow, ValidChain;
    LoadedRow(h, rows, subjects, events, e);
    FilterMultiplicity(events, e);
    SubjectHashesDistinct(rows, e.subjectId);
    NoDuplicatesMultiset(SubjectEvents(rows, e.subjectId));
    assert multiset(EventsOf(events, e.subjectId)) == multiset(SubjectEvents(rows, e.subjectId));
  }

  /** Rows that appends wrote and the timeline loads rebuild, subject by subject, to append order. */
  lemma LoadedChains(h: Hasher, rows: seq<AuditRow>, subjects: set<Id>, events: seq<AuditEvent>)
    requires h.CollisionFree() && LedgerInv(h, rows) && Loads(rows, subjects, events)
    ensures WellChained(events)
    ensures forall s :: ChainOf(events, s) == if s in subjects then SubjectEvents(rows, s) else []
  {
    hide FaithfulRow, ValidChain;
    LoadedAreDistinct(h, rows, subjects, events);
    forall s ensures OrderChain(EventsOf(events, s)) == Ok(if s in subjects then SubjectEvents(rows, s) else []) {
      assert multiset(EventsOf(events, s)) == multiset(if s in subjects then SubjectEvents(rows, s) else []);
      if s in subjects {
        ValidChainRebuilds(h, SubjectEvents(rows, s), EventsOf(events, s));
      } else {
        SameMembers(EventsOf(events, s), []);
        assert EventsOf(events, s) == [];
      }
    }
  }

  ghost predicate TimesIncrease(rows: seq<AuditRow>, subjectId: Id) {
    var c := SubjectEvents(rows, subjectId);
    forall i, j :: 0 <= i < j < |c| ==> c[i].recordedAt < c[j].recordedAt
  }

  /** From appends to timeline: when each subject's appends carry increasing times, the rows loaded for any
      subjects in any order sort to one timeline, ordered by time and id, that lists each subject's events in
      the order they were appended. */
  lemma TimelineOfRun(h: Hasher, commands: seq<AppendCommand>, subjects: set<Id>, events: seq<AuditEvent>,
                      position: AuditEvent -> nat, collate: Id -> int)
    requires h.CollisionFree() && forall x, y :: collate(x) == collate(y) ==> x == y
    requires Loads(RunAppends(h, [], commands), subjects, events)
    requires WellChained(events) ==> forall e :: e in events ==> position(e) == Index(events, e)
    requires forall s :: s in subjects ==> TimesIncrease(RunAppends(h, [], commands), s)
    ensures HasSortedOrder(position, collate, events)
    ensures forall t :: multiset(t) == multiset(events) && NeighboursInOrder(position, collate, t) ==>
      && (forall s :: s in subjects ==> EventsOf(t, s) == SubjectEvents(RunAppends(h, [], commands), s))
      && (forall i, j :: 0 <= i < j < |t| ==> KeyBefore(collate, t[i], t[j]))
      && (forall u :: multiset(u) == multiset(events) && NeighboursInOrder(position, collate, u) ==> u == t)
  {
    hide LedgerInv, RunAppends, WellChained, KeyBefore, TimesIncrease, SortedTimeline, NeighboursInOrder, Before, Straddles, Loads;
    var rows := RunAppends(h, [], commands);
    EmptyLedger(h);
    RunKeepsInv(h, [], commands);
    LoadedChains(h, rows, subjects, events);
    LoadedAreDistinct(h, rows, subjects, events);
    PositionsFollowTimes(h, rows, subjects, events, position);
    NothingStraddles(events, position, collate);
    TimelineExactly(events, position, collate);
    forall t | multiset(t) == multiset(events) && SortedTimeline(position, collate, t)
      ensures forall i, j :: 0 <= i < j < |t| ==> KeyBefore(collate, t[i], t[j])
    {
      SortedByKey(events, position, collate, t);
    }
  }

  ghost predicate FollowsTimes(position: AuditEvent -> nat, events: seq<AuditEvent>) {
    forall a, b :: a in events && b in events && a.subjectId == b.subjectId && position(a) < position(b)
      ==> a.recordedAt < b.recordedAt
  }

  lemma PositionsFollowTimes(h: Hasher, rows: seq<AuditRow>, subjects: set<Id>, events: seq<AuditEvent>, position: AuditEvent -> nat)
    requires WellChained(events) && LedgerInv(h, rows) && Loads(rows, subjects, events)
    requires forall s :: ChainOf(events, s) == if s in subjects then SubjectEvents(rows, s) else []
    requires forall e :: e in events ==> position(e) == Index(events, e)
    requires forall s :: s in subjects ==> TimesIncrease(rows, s)
    ensures FollowsTimes(position, events)
  {
    hide WellChained, LedgerInv, Loads;
    forall a, b | a in events && b in events && a.subjectId == b.subjectId && position(a) < position(b)
      ensures a.recordedAt < b.recordedAt
    {
      LoadedRow(h, rows, subjects, events, a);
      assert IsIndex(events, a, position(a)) && IsIndex(events, b, position(b));
      assert TimesIncrease(rows, a.subjectId);
    }
  }

  lemma NothingStraddles(events: seq<AuditEvent>, position: AuditEvent -> nat, collate: Id -> int)
    requires FollowsTimes(position, events)
    ensures !AnyStraddles(position, collate, set e | e in events)
  {
  }

  lemma SortedByKey(events: seq<AuditEvent>, position: AuditEvent -> nat, collate: Id -> int, t: seq<AuditEvent>)
    requires FollowsTimes(position, events) && multiset(t) == multiset(events) && SortedTimeline(position, collate, t)
    requires WellChained(events) && DistinctIds(collate, set e | e in events)
    requires forall e :: e in events ==> position(e) == Index(events, e)
    ensures forall i, j :: 0 <= i < j < |t| ==> KeyBefore(collate, t[i], t[j])
  {
    hide WellChained, KeyBefore;
    SameMembers(t, events);
    KeysOfChains(events, position, collate);
    IncreasingTimesNeverStraddle(position, collate, set e | e in events);
    forall i, j | 0 <= i < j < |t| ensures KeyBefore(collate, t[i], t[j]) {
      assert Before(position, collate, t[i], t[j]) && !Before(position, collate, t[j], t[i]);
      assert t[i] in t && t[j] in t;
    }
  }

  // ---------- Rows that no order sorts ----------

  function Backdated(): seq<AppendCommand> {
    [AppendCommand(AppendInput("r1", "a", OtherPayload("first", ""), 10, None), "e1"),
     AppendCommand(AppendInput("r1", "a", OtherPayload("second", ""), 5, None), "e2"),
     AppendCommand(AppendInput("r1", "b", OtherPayload("other", ""), 7, None), "e3")]
  }

  lemma BackdatedRows(h: Hasher)
    requires h.CollisionFree()
    ensures var rows := RunAppends(h, [], Backdated());
      && LedgerInv(h, rows) && |rows| == 3
      && SubjectEvents(rows, "a") == [rows[0].event, rows[1].event] && SubjectEvents(rows, "b") == [rows[2].event]
      && rows[0].event.recordedAt == 10 && rows[1].event.recordedAt == 5 && rows[2].event.recordedAt == 7
  {
    hide LedgerInv, Appended, Candidate;
    var c := Backdated();
    EmptyLedger(h);
    var r1 := [NextRow(h, [], c[0].input, "e1")];
    FirstAppend(h, [], c[0]);
    var r2 := r1 + [NextRow(h, r1, c[1].input, "e2")];
    FirstAppend(h, r1, c[1]);
    var r3 := r2 + [NextRow(h, r2, c[2].input, "e3")];
    FirstAppend(h, r2, c[2]);
    assert c[1..][1..] == [c[2]] && [c[2]][1..] == [];
    assert RunAppends(h, r2, [c[2]]) == r3;
    assert RunAppends(h, r1, c[1..]) == r3;
  }

  /** Three appends of the run above: no retry, no taken id. */
  lemma FirstAppend(h: Hasher, rows: seq<AuditRow>, command: AppendCommand)
    requires h.CollisionFree() && LedgerInv(h, rows)
    requires command.input.deduplicationKey.None? && !IdTaken(rows, command.eventId)
    ensures var row := NextRow(h, rows, command.input, command.eventId);
      && Appended(h, rows, command.input, command.eventId).1 == rows + [row]
      && LedgerInv(h, rows + [row]) && row.event.recordedAt == command.input.recordedAt && row.event.eventId == command.eventId
      && SubjectEvents(rows + [row], command.input.subjectId) == SubjectEvents(rows, command.input.subjectId) + [row.event]
      && forall s :: s != command.input.subjectId ==> SubjectEvents(rows + [row], s) == SubjectEvents(rows, s)
  {
    hide LedgerInv, Appended;
    AppendOutcome(h, rows, command.input, command.eventId);
    NextRowKeepsInv(h, rows, command.input, command.eventId);
  }

  /** An append that carries an earlier time than its subject's last one, and another subject's in between:
      no order of these rows is sorted. */
  lemma BackdatedNeverSorted(h: Hasher, events: seq<AuditEvent>, position: AuditEvent -> nat, collate: Id -> int)
    requires h.CollisionFree() && Loads(RunAppends(h, [], Backdated()), {"a", "b"}, events)
    requires WellChained(events) ==> forall e :: e in events ==> position(e) == Index(events, e)
    ensures !HasSortedOrder(position, collate, events)
  {
    hide LedgerInv, RunAppends, WellChained, Loads, Backdated, Straddles;
    var rows := RunAppends(h, [], Backdated());
    BackdatedRows(h);
    LoadedChains(h, rows, {"a", "b"}, events);
    PlacedAt(events, "a", 0);
    PlacedAt(events, "a", 1);
    PlacedAt(events, "b", 0);
    FallsBetween(position, collate, rows[0].event, rows[1].event, rows[2].event);
    StraddlingNeverSorted(events, position, collate);
  }

  lemma PlacedAt(events: seq<AuditEvent>, subjectId: Id, i: nat)
    requires WellChained(events) && i < |ChainOf(events, subjectId)|
    ensures var e := ChainOf(events, subjectId)[i];
      e in events && e.subjectId == subjectId && Index(events, e) == i
  {
    hide WellChained;
    ChainOfProperties(events, subjectId);
    var e := ChainOf(events, subjectId)[i];
    assert e in ChainOf(events, subjectId) && IsIndex(events, e, i);
    IndexUnique(events, e, i, Index(events, e));
  }

  lemma FallsBetween(position: AuditEvent -> nat, collate: Id -> int, a: AuditEvent, b: AuditEvent, c: AuditEvent)
    requires a.subjectId == b.subjectId != c.subjectId && position(a) < position(b)
    requires b.recordedAt < c.recordedAt < a.recordedAt
    ensures Straddles(position, collate, a, b, c)
  {
  }
}
