/** What a conversation takes from a message, field by field (travelbot/policy.ts). */
module TravelFields {
  import opened Common
  import opened Calendar
  import opened TravelPolicy

  /** What the text of the messages says about a field; nothing is ever read about party and cabin. */
  function Read(x: Extracted, f: Field): Option<Value> {
    match f
    case ORIGIN => if x.origin.Some? then Some(Airport(x.origin.value)) else None
    case DESTINATION => if x.destination.Some? then Some(Airport(x.destination.value)) else None
    case DEPARTURE => if x.departure.Some? then Some(Leaves(x.departure.value)) else None
    case BUDGET => if x.budget.Some? then Some(AtMost(x.budget.value)) else None
    case PASSENGERS => None
    case CABIN => None
  }

  /** What a field that is not yet known is given when the model leaves it out: one traveller, economy, or the text. */
  function Default(x: Extracted, f: Field): Option<Value> {
    match f
    case PASSENGERS => Some(Travellers(1))
    case CABIN => Some(Seat(ECONOMY))
    case _ => Read(x, f)
  }

  /** A known field keeps what the model says of it, if anything. An unknown one is what the model says, or else its
      default; but a departure that the text names wins over the model's. */
  lemma ConventionsExactly(current: Fields, raw: Proposal, x: Extracted, f: Field)
    ensures var p := WithConventions(current, raw, x);
      var said := if f in p.fields then Some(p.fields[f]) else None;
      var before := if f in raw.fields then Some(raw.fields[f]) else None;
      && said == (
           if f in current then before
           else if f == DEPARTURE && x.departure.Some? then Some(Leaves(x.departure.value))
           else if before.Some? then before
           else Default(x, f))
      && (f in p.ambiguous <==>
           && f in raw.ambiguous
           && !(f in current && f !in raw.fields)
           && !(f !in current && f !in raw.fields && Default(x, f).Some?)
           && !(f !in current && f == DEPARTURE && x.departure.Some?))
      && p.selectedOffer == raw.selectedOffer && p.confirmation == raw.confirmation && p.action == raw.action
  {
  }

  /** What is known of a field before equal airports and lapsed dates are dropped. */
  function Known(current: Intent, p: Proposal, f: Field): Option<Value> {
    if f in p.fields && f !in p.ambiguous then Some(p.fields[f])
    else if f in current.fields then Some(current.fields[f])
    else None
  }

  predicate SameCity(current: Intent, p: Proposal) {
    Known(current, p, ORIGIN).Some? && Known(current, p, ORIGIN) == Known(current, p, DESTINATION)
  }

  predicate NoDeparture(current: Intent, p: Proposal, now: Instant) {
    var d := Known(current, p, DEPARTURE);
    d.Some? && d.value.Leaves? && !DepartureAccepted(d.value.departure, now)
  }

  /** Field by field what an application leaves, reports and counts as changed: a field takes an undoubted value,
      the destination is dropped where it is the origin and the departure where it is no date ahead; every doubted
      and every dropped field is reported. */
  lemma AppliedExactly(current: Intent, p: Proposal, now: Instant, f: Field)
    ensures var a := Apply(current, p, now);
      var dropped := (f == DESTINATION && SameCity(current, p)) || (f == DEPARTURE && NoDeparture(current, p, now));
      && (if f in a.intent.fields then Some(a.intent.fields[f]) else None) == (if dropped then None else Known(current, p, f))
      && (f in a.invalid <==> f in p.ambiguous || dropped)
      && (f in a.changed <==>
           f in p.fields && f !in p.ambiguous && (f in current.fields ==> current.fields[f] != p.fields[f]))
  {
    hide DepartureAccepted, Lapsed, SameAirports, SameCity, NoDeparture;
    MergedExactly(current, p, f);
    DroppedExactly(current, p, now);
  }

  lemma MergedExactly(current: Intent, p: Proposal, f: Field)
    ensures var merged := Merged(current.fields, p);
      (if f in merged then Some(merged[f]) else None) == Known(current, p, f)
  {
  }

  lemma DroppedExactly(current: Intent, p: Proposal, now: Instant)
    ensures SameAirports(Merged(current.fields, p)) <==> SameCity(current, p)
    ensures Lapsed(Merged(current.fields, p), now) <==> NoDeparture(current, p, now)
  {
    hide DepartureAccepted, Merged, Known;
    MergedExactly(current, p, ORIGIN);
    MergedExactly(current, p, DESTINATION);
    MergedExactly(current, p, DEPARTURE);
    var merged := Merged(current.fields, p);
    if DEPARTURE in merged { assert Suits(DEPARTURE, merged[DEPARTURE]); }
  }

  /** The rest of the intent: a change forgets the selected offer, and only then; a confirmation is never touched. */
  lemma SelectionExactly(current: Intent, p: Proposal, now: Instant)
    ensures var a := Apply(current, p, now);
      && a.intent.confirmation == current.confirmation
      && (a.invalidatesDownstream <==> current.selectedOffer.Some? && exists f :: f in a.changed)
      && a.intent.selectedOffer == (
           if current.selectedOffer.Some? && a.changed != {} then None
           else if p.selectedOffer.Some? then p.selectedOffer
           else current.selectedOffer)
  {
    var a := Apply(current, p, now);
    if a.changed != {} { var f :| f in a.changed; }
  }
}
