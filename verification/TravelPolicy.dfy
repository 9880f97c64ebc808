/** How an untrusted proposal is read against what a conversation already knows (travelbot/policy.ts). */
module TravelPolicy {
  import opened Common
  import opened Calendar

  datatype Field = ORIGIN | DESTINATION | DEPARTURE | PASSENGERS | CABIN | BUDGET

  const FIELDS: seq<Field> := [ORIGIN, DESTINATION, DEPARTURE, PASSENGERS, CABIN, BUDGET]

  datatype CabinClass = ECONOMY | PREMIUM_ECONOMY | BUSINESS | FIRST

  datatype Value =
    | Airport(iata: string)
    | Leaves(departure: Departure)
    | Travellers(count: nat)
    | Seat(cabin: CabinClass)
    | AtMost(limit: Money)

  predicate Suits(f: Field, v: Value) {
    match f
    case ORIGIN => v.Airport?
    case DESTINATION => v.Airport?
    case DEPARTURE => v.Leaves?
    case PASSENGERS => v.Travellers?
    case CABIN => v.Seat?
    case BUDGET => v.AtMost?
  }

  /** The six required fields; a field that is null is absent. */
  type Fields = m: map<Field, Value> | forall f :: f in m ==> Suits(f, m[f]) witness map[]

  datatype Decision = CONFIRM | DENY
  datatype Action = NONE | FIND_OFFERS | CREATE_CHECKOUT | PREPARE_AUTHORITY | REQUEST_PURCHASE | GET_RECEIPT | GET_AUDIT_TIMELINE

  /** What the model proposes for one message. */
  datatype Proposal = Proposal(
    fields: Fields,
    ambiguous: set<Field>,
    selectedOffer: Option<Id>,
    confirmation: Option<Decision>,
    action: Action)

  /** Where a field stands in the list. */
  function Place(f: Field): (i: nat)
    ensures i < 6 && FIELDS[i] == f
  {
    match f
    case ORIGIN => 0
    case DESTINATION => 1
    case DEPARTURE => 2
    case PASSENGERS => 3
    case CABIN => 4
    case BUDGET => 5
  }

  lemma PlaceOf(i: nat)
    requires i < 6
    ensures Place(FIELDS[i]) == i
  {
    assert forall j, k :: 0 <= j < k < 6 ==> FIELDS[j] != FIELDS[k];
  }

  predicate Complete(fields: Fields) {
    forall f: Field :: f in fields
  }

  // ---------- Conversation conventions ----------

  /** What the text of the recent messages says; how it is read off the text is not modelled. */
  datatype Extracted = Extracted(
    origin: Option<string>,
    destination: Option<string>,
    departure: Option<Departure>,
    budget: Option<Money>)

  /** The value a convention gives a field, when it gives one. */
  function Convention(current: Fields, proposed: Fields, x: Extracted, f: Field): (r: Option<Value>)
    ensures r.Some? ==> Suits(f, r.value)
  {
    if f in current || (f in proposed && f != DEPARTURE) then None
    else
      match f
      case ORIGIN => if x.origin.Some? then Some(Airport(x.origin.value)) else None
      case DESTINATION => if x.destination.Some? then Some(Airport(x.destination.value)) else None
      case DEPARTURE => if x.departure.Some? then Some(Leaves(x.departure.value)) else None
      case PASSENGERS => Some(Travellers(1))
      case CABIN => Some(Seat(ECONOMY))
      case BUDGET => if x.budget.Some? then Some(AtMost(x.budget.value)) else None
  }

  /** A field whose ambiguity the conventions settle. */
  predicate Resolved(current: Fields, proposed: Fields, x: Extracted, f: Field) {
    (f in current && f !in proposed) || Convention(current, proposed, x, f).Some?
  }

  function WithConventions(current: Fields, proposal: Proposal, x: Extracted): Proposal {
    proposal.(
      fields := map f: Field | f in proposal.fields || Convention(current, proposal.fields, x, f).Some? ::
                  if Convention(current, proposal.fields, x, f).Some? then Convention(current, proposal.fields, x, f).value
                  else proposal.fields[f],
      ambiguous := set f | f in proposal.ambiguous && !Resolved(current, proposal.fields, x, f))
  }

  /** The fields already known that the proposal leaves out. */
  method ResolvedByKnowledge(current: Fields, proposed: Fields) returns (resolved: set<Field>)
    ensures resolved == set f: Field | f in current && f !in proposed
  {
    resolved := {};
    for i := 0 to 6
      invariant resolved == set f: Field | Place(f) < i && f in current && f !in proposed
    {
      PlaceOf(i);
      if FIELDS[i] in current && FIELDS[i] !in proposed { resolved := resolved + {FIELDS[i]}; }
    }
  }

  /** The order in which the conventions are tried. */
  function TryPlace(f: Field): nat {
    match f
    case PASSENGERS => 0
    case CABIN => 1
    case ORIGIN => 2
    case DESTINATION => 3
    case DEPARTURE => 4
    case BUDGET => 5
  }

  ghost predicate FilledAt(current: Fields, proposed: Fields, x: Extracted, fields: Fields, resolved: set<Field>, n: nat, f: Field) {
    var c := Convention(current, proposed, x, f);
    && (f in resolved <==> (f in current && f !in proposed) || (TryPlace(f) < n && c.Some?))
    && (f in fields <==> f in proposed || (TryPlace(f) < n && c.Some?))
    && (f in fields ==> fields[f] == if TryPlace(f) < n && c.Some? then c.value else proposed[f])
  }

  /** The conventions of the first `n` fields have been tried. */
  ghost predicate Filled(current: Fields, proposed: Fields, x: Extracted, fields: Fields, resolved: set<Field>, n: nat) {
    forall f: Field :: FilledAt(current, proposed, x, fields, resolved, n, f)
  }

  lemma Fill(current: Fields, proposed: Fields, x: Extracted, fields: Fields, resolved: set<Field>, f: Field)
    requires Filled(current, proposed, x, fields, resolved, TryPlace(f))
    ensures var c := Convention(current, proposed, x, f);
      if c.Some? then Filled(current, proposed, x, fields[f := c.value], resolved + {f}, TryPlace(f) + 1)
      else Filled(current, proposed, x, fields, resolved, TryPlace(f) + 1)
    ensures f in fields <==> f in proposed
  {
    hide Convention;
    var c := Convention(current, proposed, x, f);
    var fields': Fields := if c.Some? then fields[f := c.value] else fields;
    var resolved' := if c.Some? then resolved + {f} else resolved;
    assert FilledAt(current, proposed, x, fields, resolved, TryPlace(f), f);
    var n := TryPlace(f) + 1;
    forall g: Field ensures FilledAt(current, proposed, x, fields', resolved', n, g) {
      FillAt(current, proposed, x, fields, resolved, f, fields', resolved', g);
    }
  }

  lemma FillAt(current: Fields, proposed: Fields, x: Extracted, fields: Fields, resolved: set<Field>, f: Field,
               fields': Fields, resolved': set<Field>, g: Field)
    requires FilledAt(current, proposed, x, fields, resolved, TryPlace(f), g)
    requires var c := Convention(current, proposed, x, f);
      && fields' == (if c.Some? then fields[f := c.value] else fields)
      && resolved' == (if c.Some? then resolved + {f} else resolved)
    ensures FilledAt(current, proposed, x, fields', resolved', TryPlace(f) + 1, g)
  {
    hide Convention;
  }

  lemma AllFilled(current: Fields, proposal: Proposal, x: Extracted, fields: Fields, resolved: set<Field>)
    requires Filled(current, proposal.fields, x, fields, resolved, 6)
    ensures proposal.(fields := fields, ambiguous := proposal.ambiguous - resolved) == WithConventions(current, proposal, x)
  {
    hide Convention;
    var p := WithConventions(current, proposal, x);
    forall f: Field
      ensures f in fields <==> f in p.fields
      ensures f in fields ==> fields[f] == p.fields[f]
      ensures f in proposal.ambiguous - resolved <==> f in p.ambiguous
    {
      assert FilledAt(current, proposal.fields, x, fields, resolved, 6, f);
    }
    assert fields == p.fields && proposal.ambiguous - resolved == p.ambiguous;
  }

  /** One passenger, economy. */
  method FillDefaults(current: Fields, proposal: Proposal, x: Extracted, before: Fields, settled: set<Field>)
    returns (fields: Fields, resolved: set<Field>)
    requires Filled(current, proposal.fields, x, before, settled, 0)
    ensures Filled(current, proposal.fields, x, fields, resolved, 2)
  {
    hide Filled;
    fields, resolved := before, settled;
    Fill(current, proposal.fields, x, fields, resolved, PASSENGERS);
    if PASSENGERS !in current && PASSENGERS !in fields {
      fields, resolved := fields[PASSENGERS := Travellers(1)], resolved + {PASSENGERS};
    }
    Fill(current, proposal.fields, x, fields, resolved, CABIN);
    if CABIN !in current && CABIN !in fields {
      fields, resolved := fields[CABIN := Seat(ECONOMY)], resolved + {CABIN};
    }
  }

  /** Airports read off the text. */
  method FillRoute(current: Fields, proposal: Proposal, x: Extracted, before: Fields, settled: set<Field>)
    returns (fields: Fields, resolved: set<Field>)
    requires Filled(current, proposal.fields, x, before, settled, 2)
    ensures Filled(current, proposal.fields, x, fields, resolved, 4)
  {
    hide Filled;
    fields, resolved := before, settled;
    Fill(current, proposal.fields, x, fields, resolved, ORIGIN);
    if ORIGIN !in current && ORIGIN !in fields && x.origin.Some? {
      fields, resolved := fields[ORIGIN := Airport(x.origin.value)], resolved + {ORIGIN};
    }
    Fill(current, proposal.fields, x, fields, resolved, DESTINATION);
    if DESTINATION !in current && DESTINATION !in fields && x.destination.Some? {
      fields, resolved := fields[DESTINATION := Airport(x.destination.value)], resolved + {DESTINATION};
    }
  }

  /** A date read off the text replaces even a proposed one; a budget does not. */
  method FillDateAndBudget(current: Fields, proposal: Proposal, x: Extracted, before: Fields, settled: set<Field>)
    returns (fields: Fields, resolved: set<Field>)
    requires Filled(current, proposal.fields, x, before, settled, 4)
    ensures Filled(current, proposal.fields, x, fields, resolved, 6)
  {
    hide Filled;
    fields, resolved := before, settled;
    Fill(current, proposal.fields, x, fields, resolved, DEPARTURE);
    if DEPARTURE !in current && x.departure.Some? {
      fields, resolved := fields[DEPARTURE := Leaves(x.departure.value)], resolved + {DEPARTURE};
    }
    Fill(current, proposal.fields, x, fields, resolved, BUDGET);
    if BUDGET !in current && BUDGET !in fields && x.budget.Some? {
      fields, resolved := fields[BUDGET := AtMost(x.budget.value)], resolved + {BUDGET};
    }
  }

  method ApplyConversationConventions(current: Fields, proposal: Proposal, x: Extracted) returns (r: Proposal)
    ensures r == WithConventions(current, proposal, x)
  {
    var fields: Fields := proposal.fields;
    var resolved := ResolvedByKnowledge(current, fields);
    assert Filled(current, proposal.fields, x, fields, resolved, 0);
    hide Filled, WithConventions;
    fields, resolved := FillDefaults(current, proposal, x, fields, resolved);
    fields, resolved := FillRoute(current, proposal, x, fields, resolved);
    fields, resolved := FillDateAndBudget(current, proposal, x, fields, resolved);
    AllFilled(current, proposal, x, fields, resolved);
    return proposal.(fields := fields, ambiguous := proposal.ambiguous - resolved);
  }

  // ---------- Applying a proposal ----------

  datatype Settlement = CONFIRMED | DENIED

  datatype Confirmation = Confirmation(
    approvalId: Id, merchantId: Id, checkoutHash: Digest, amount: Money, mandateId: Id, decision: Settlement)

  datatype Intent = Intent(fields: Fields, selectedOffer: Option<Id>, confirmation: Option<Confirmation>)

  datatype Applied = Applied(intent: Intent, invalid: set<Field>, changed: set<Field>, invalidatesDownstream: bool)

  predicate Taken(proposal: Proposal, f: Field) {
    f in proposal.fields && f !in proposal.ambiguous
  }

  function Merged(current: Fields, proposal: Proposal): Fields {
    map f: Field | f in current || Taken(proposal, f) :: if Taken(proposal, f) then proposal.fields[f] else current[f]
  }

  function Changed(current: Fields, proposal: Proposal): set<Field> {
    set f: Field | Taken(proposal, f) && (f !in current || current[f] != proposal.fields[f])
  }

  predicate SameAirports(fields: Fields) {
    ORIGIN in fields && DESTINATION in fields && fields[ORIGIN] == fields[DESTINATION]
  }

  /** A departure that is no real date, or not one after today. */
  predicate Lapsed(fields: Fields, now: Instant) {
    DEPARTURE in fields && !DepartureAccepted(fields[DEPARTURE].departure, now)
  }

  function Rejected(fields: Fields, now: Instant): set<Field> {
    (if SameAirports(fields) then {DESTINATION} else {}) + (if Lapsed(fields, now) then {DEPARTURE} else {})
  }

  function Apply(current: Intent, proposal: Proposal, now: Instant): Applied {
    var merged, changed := Merged(current.fields, proposal), Changed(current.fields, proposal);
    var rejected := Rejected(merged, now);
    var downstream := changed != {} && current.selectedOffer.Some?;
    Applied(
      Intent(merged - rejected,
             if downstream then None else if proposal.selectedOffer.Some? then proposal.selectedOffer else current.selectedOffer,
             current.confirmation),
      proposal.ambiguous + rejected, changed, downstream)
  }

  ghost predicate MergedAt(current: Fields, proposal: Proposal, fields: Fields, changed: set<Field>, n: nat, f: Field) {
    && (f in changed <==> Place(f) < n && Taken(proposal, f) && (f !in current || current[f] != proposal.fields[f]))
    && (f in fields <==> f in current || (Place(f) < n && Taken(proposal, f)))
    && (f in fields ==> fields[f] == if Place(f) < n && Taken(proposal, f) then proposal.fields[f] else current[f])
  }

  /** The first `n` fields have been merged. */
  ghost predicate PartMerged(current: Fields, proposal: Proposal, fields: Fields, changed: set<Field>, n: nat) {
    forall f: Field :: MergedAt(current, proposal, fields, changed, n, f)
  }

  lemma MergeOne(current: Fields, proposal: Proposal, fields: Fields, changed: set<Field>, f: Field)
    requires PartMerged(current, proposal, fields, changed, Place(f))
    ensures PartMerged(current, proposal,
      if Taken(proposal, f) then fields[f := proposal.fields[f]] else fields,
      if Taken(proposal, f) && (f !in fields || fields[f] != proposal.fields[f]) then changed + {f} else changed,
      Place(f) + 1)
  {
    var fields': Fields := if Taken(proposal, f) then fields[f := proposal.fields[f]] else fields;
    var changed' := if Taken(proposal, f) && (f !in fields || fields[f] != proposal.fields[f]) then changed + {f} else changed;
    var n := Place(f) + 1;
    forall g: Field ensures MergedAt(current, proposal, fields', changed', n, g) {
      MergeAt(current, proposal, fields, changed, f, fields', changed', g);
    }
  }

  lemma MergeAt(current: Fields, proposal: Proposal, fields: Fields, changed: set<Field>, f: Field,
                fields': Fields, changed': set<Field>, g: Field)
    requires MergedAt(current, proposal, fields, changed, Place(f), f)
    requires MergedAt(current, proposal, fields, changed, Place(f), g)
    requires fields' == if Taken(proposal, f) then fields[f := proposal.fields[f]] else fields
    requires changed' == if Taken(proposal, f) && (f !in fields || fields[f] != proposal.fields[f]) then changed + {f} else changed
    ensures MergedAt(current, proposal, fields', changed', Place(f) + 1, g)
  {
  }

  lemma AllMerged(current: Fields, proposal: Proposal, fields: Fields, changed: set<Field>)
    requires PartMerged(current, proposal, fields, changed, 6)
    ensures fields == Merged(current, proposal) && changed == Changed(current, proposal)
  {
    forall f: Field ensures f in fields <==> f in Merged(current, proposal) {
      assert MergedAt(current, proposal, fields, changed, 6, f);
    }
    forall f: Field ensures f in changed <==> f in Changed(current, proposal) {
      assert MergedAt(current, proposal, fields, changed, 6, f);
    }
    forall f: Field | f in fields ensures fields[f] == Merged(current, proposal)[f] {
      assert MergedAt(current, proposal, fields, changed, 6, f);
    }
  }

  /** The merging loop: the fields and the list of changed ones. */
  method MergeFields(current: Fields, proposal: Proposal) returns (fields: Fields, changed: set<Field>)
    ensures fields == Merged(current, proposal) && changed == Changed(current, proposal)
  {
    fields, changed := current, {};
    assert PartMerged(current, proposal, fields, changed, 0) by {
      assert forall f: Field :: MergedAt(current, proposal, fields, changed, 0, f);
    }
    hide PartMerged, Merged, Changed;
    for i := 0 to 6
      invariant PartMerged(current, proposal, fields, changed, i)
    {
      var field := FIELDS[i];
      PlaceOf(i);
      MergeOne(current, proposal, fields, changed, field);
      if field in proposal.fields && field !in proposal.ambiguous {
        if field !in fields || fields[field] != proposal.fields[field] { changed := changed + {field}; }
        fields := fields[field := proposal.fields[field]];
      }
    }
    AllMerged(current, proposal, fields, changed);
  }

  /** The checks after the merge: equal airports, and a date that is no date or has passed. */
  method RejectFields(merged: Fields, doubted: set<Field>, now: Instant) returns (fields: Fields, invalid: set<Field>)
    ensures fields == merged - Rejected(merged, now) && invalid == doubted + Rejected(merged, now)
  {
    hide DepartureAccepted;
    fields, invalid := merged, doubted;
    if ORIGIN in fields && DESTINATION in fields && fields[ORIGIN] == fields[DESTINATION] {
      invalid := invalid + {DESTINATION};
      fields := fields - {DESTINATION};
    }
    if DEPARTURE in fields && !DepartureAccepted(fields[DEPARTURE].departure, now) {
      invalid := invalid + {DEPARTURE};
      fields := fields - {DEPARTURE};
    }
  }

  method ApplyTravelIntentProposal(current: Intent, proposal: Proposal, now: Instant) returns (r: Applied)
    ensures r == Apply(current, proposal, now)
  {
    hide Merged, Changed, Rejected;
    var merged, changed := MergeFields(current.fields, proposal);
    var selectedOffer := if proposal.selectedOffer.Some? then proposal.selectedOffer else current.selectedOffer;
    var fields, invalid := RejectFields(merged, proposal.ambiguous, now);
    var downstream := changed != {} && current.selectedOffer.Some?;
    if downstream { selectedOffer := None; }
    r := Applied(Intent(fields, selectedOffer, current.confirmation), invalid, changed, downstream);
  }

  // ---------- What gets through ----------

  /** A proposal that only repeats, without doubt, what is already known. */
  predicate Repeats(current: Fields, raw: Proposal) {
    forall f: Field :: f in raw.fields ==> f !in raw.ambiguous && f in current && raw.fields[f] == current[f]
  }

  /** Nothing is left for the conventions to fill; they only drop doubts about fields not mentioned. */
  lemma ConventionsOnComplete(current: Fields, raw: Proposal, x: Extracted)
    requires Complete(current)
    ensures var p := WithConventions(current, raw, x);
      && p.fields == raw.fields && p.selectedOffer == raw.selectedOffer && p.confirmation == raw.confirmation
      && forall f: Field :: f in p.ambiguous <==> f in raw.ambiguous && f in raw.fields
  {
    assert WithConventions(current, raw, x).fields == raw.fields;
  }

  /** A known field that the proposal leaves out is beyond its reach: no convention refills it and no doubt
      about it survives. An unknown party or cabin never stays unknown. */
  lemma KnownFieldsImmune(current: Fields, raw: Proposal, x: Extracted, f: Field)
    requires f !in raw.fields
    ensures var p := WithConventions(current, raw, x);
      && (f in current ==> f !in p.fields && f !in p.ambiguous)
      && (f !in current && f in {PASSENGERS, CABIN} ==>
           f !in p.ambiguous && f in p.fields && p.fields[f] == if f == CABIN then Seat(ECONOMY) else Travellers(1))
  {
  }

  lemma UnchangedMerge(current: Fields, p: Proposal)
    requires Complete(current)
    ensures Changed(current, p) == {} <==> Merged(current, p) == current
    ensures Changed(current, p) == {} <==> forall f: Field :: Taken(p, f) ==> p.fields[f] == current[f]
  {
    forall f: Field | Taken(p, f) ensures p.fields[f] == current[f] <==> f !in Changed(current, p) {}
    if Changed(current, p) == {} {
      assert forall f: Field :: Taken(p, f) ==> f !in Changed(current, p);
      assert Merged(current, p) == current;
    } else {
      var f :| f in Changed(current, p);
      assert Merged(current, p)[f] != current[f];
    }
  }

  lemma NothingRejected(fields: Fields, now: Instant)
    ensures Rejected(fields, now) == {} <==> !SameAirports(fields) && !Lapsed(fields, now)
    ensures Rejected(fields, now) == {} ==> fields - Rejected(fields, now) == fields
  {
    hide DepartureAccepted;
    assert SameAirports(fields) ==> DESTINATION in Rejected(fields, now);
    assert Lapsed(fields, now) ==> DEPARTURE in Rejected(fields, now);
  }

  /** Nothing invalid, nothing changed: the turn sees exactly the intent it started from. */
  predicate Untouched(current: Intent, a: Applied) {
    a.invalid == {} && a.changed == {} && a.intent.fields == current.fields
  }

  /** Against a complete intent a proposal passes untouched exactly when it repeats what is known, the known
      airports differ and the known date has not lapsed: any changed, doubted or lapsed field stops it. */
  lemma PassesUntouched(current: Intent, raw: Proposal, x: Extracted, now: Instant)
    requires Complete(current.fields)
    ensures var a := Apply(current, WithConventions(current.fields, raw, x), now);
      && (Untouched(current, a) <==>
           Repeats(current.fields, raw) && !SameAirports(current.fields) && !Lapsed(current.fields, now))
      && (Untouched(current, a) <==> a.invalid == {} && a.changed == {})
  {
    hide DepartureAccepted, WithConventions, Merged, Changed, Lapsed, SameAirports, Rejected;
    var p := WithConventions(current.fields, raw, x);
    ConventionsOnComplete(current.fields, raw, x);
    UnchangedMerge(current.fields, p);
    NothingRejected(current.fields, now);
    NothingRejected(Merged(current.fields, p), now);
    if p.ambiguous == {} {
      assert forall f: Field :: f in raw.fields ==> f !in p.ambiguous;
    }
    if Repeats(current.fields, raw) {
      assert p.ambiguous == {};
    }
  }

  /** A doubted field is reported, and never takes the proposed value: it stays as it was or is dropped. */
  lemma DoubtedFieldsStay(current: Intent, proposal: Proposal, now: Instant, f: Field)
    requires f in proposal.ambiguous
    ensures var a := Apply(current, proposal, now);
      && f in a.invalid && f !in a.changed
      && (f in a.intent.fields ==> f in current.fields && a.intent.fields[f] == current.fields[f])
  {
    hide DepartureAccepted, Lapsed, SameAirports;
  }

  /** An intent that leaves nothing invalid has two airports and a date still ahead, if it has them at all. */
  lemma ReadyIntent(current: Intent, proposal: Proposal, now: Instant)
    requires Apply(current, proposal, now).invalid == {}
    ensures var fields := Apply(current, proposal, now).intent.fields;
      fields == Merged(current.fields, proposal) && !SameAirports(fields) && !Lapsed(fields, now)
  {
    hide DepartureAccepted, Merged, Changed, Lapsed, SameAirports, Rejected;
    NothingRejected(Merged(current.fields, proposal), now);
    assert proposal.ambiguous + Rejected(Merged(current.fields, proposal), now) == {};
    assert Rejected(Merged(current.fields, proposal), now) == {};
  }
}
