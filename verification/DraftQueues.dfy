/** A subscriber's queue, scanned from where the events it was delivered left a draft. */
module DraftQueues {
  import opened DraftEvents
  import opened DraftReadings
  import opened DraftLedger

  /** From `x` on the queued events of `d` are well formed, and an episode the subscriber is eligible for is open. */
  ghost predicate Stands(x: Standing, s: Subscriber, d: Draft, strict: bool := false) {
    var y := Scan(x, s.queue, d, strict);
    y != Bad && (d in s.eligible ==> Behind(y, Open(s.eligible[d])))
  }

  /** The queued events are events of the drafts they name. */
  ghost predicate QueueOwned(world: World, q: seq<Event>) {
    forall e :: e in q ==> e.identity == world.owner(e.identity.draft)
  }

  ghost predicate Placing(q: seq<Event>, e: Event, p: Placement) {
    && (p.Evict? ==> p.at < |q| && !q[p.at].Structural())
    && (p.Merge? ==> q != [] && Mergeable(q[|q| - 1], e))
  }

  /** Where a placement leaves `d`: evicting a delta may leave it behind. */
  lemma ScanPlace(x: Standing, q: seq<Event>, e: Event, p: Placement, d: Draft, strict: bool := false)
    requires Placing(q, e, p) && Scan(x, q, d, strict) != Bad
    requires p.Merge? && e.Of(d) ==> q[|q| - 1].payload.sequence < e.payload.sequence
    ensures var y, z := Scan(x, q, d, strict), Scan(x, Place(q, e, p), d, strict);
            if p.Drop? || p.Overload? then z == y
            else if !e.Of(d) then z != Bad && Behind(z, y)
            else if p.Merge? then z == Open(e.payload.sequence)
            else exists m :: m != Bad && Behind(m, y) && z == Next(m, e, d, strict)
  {
    match p
    case Append => ScanAppend(x, q, e, d, strict);
    case Evict(k) =>
      ScanEvict(x, q, k, d, strict);
      ScanAppend(x, q[..k] + q[k + 1..], e, d, strict);
    case Merge => ScanMerge(x, q, e, d, strict);
    case Drop =>
    case Overload =>
  }

  lemma BeginStands(x: Standing, s: Subscriber, e: Event, size: Event -> nat, d: Draft, strict: bool := false)
    requires Stands(x, s, d, strict) && e.payload == Started
    requires strict && e.Of(d) ==> !Scan(x, s.queue, d, strict).Open?
    ensures Stands(x, Hear(s, Begin(e), size), d, strict)
  {
    ScanPlace(x, s.queue, e, PlaceStructural(s.queue), d, strict);
  }

  lemma EndStands(x: Standing, s: Subscriber, e: Event, size: Event -> nat, d: Draft, strict: bool := false)
    requires Stands(x, s, d, strict) && e.payload.Abandoned?
    ensures Stands(x, Hear(s, End(e), size), d, strict)
  {
    if e.identity.draft in s.eligible {
      ScanPlace(x, s.queue, e, PlaceStructural(s.queue), d, strict);
    }
  }

  lemma ExtendStands(x: Standing, s: Subscriber, e: Event, size: Event -> nat, d: Draft, strict: bool := false)
    requires Stands(x, s, d, strict) && e.payload.Delta?
    ensures Stands(x, Hear(s, Extend(e), size), d, strict)
  {
    var p := PlaceDelta(s.queue, e, size);
    if e.identity.draft in s.eligible && e.payload.sequence > s.eligible[e.identity.draft] {
      if p.Merge? && e.Of(d) {
        ScanLast(x, s.queue, d, strict);
      }
      ScanPlace(x, s.queue, e, p, d, strict);
    }
  }

  lemma PurgeScans(world: World, x: Standing, q: seq<Event>, work: Work, d: Draft, strict: bool := false)
    requires QueueOwned(world, q)
    ensures Scan(x, Retain(q, work), d, strict) == if OfWork(world, d, work) then x else Scan(x, q, d, strict)
  {
    ScanRetain(x, q, work, d, OfWork(world, d, work), strict);
  }

  lemma ScanFrom(x: Standing, q: seq<Event>, d: Draft, strict: bool := false)
    requires Scan(x, q, d, strict) != Bad
    ensures x != Bad
  {
    if x == Bad {
      ScanBad(q, d, strict);
    }
  }

  /** Every allowed broadcast keeps a draft's standing, strictly so if no episode starts while one is open. */
  lemma HearStands(world: World, stored: Stored, x: Standing, s: Subscriber, a: Broadcast, d: Draft, strict: bool := false)
    requires Allowed(world, stored, a) && Stands(x, s, d, strict) && QueueOwned(world, s.queue)
    requires d in s.eligible ==> d in stored
    requires strict && a.Begin? && a.event.Of(d) ==> !Scan(x, s.queue, d, strict).Open?
    ensures WellFormed(a) && Stands(x, Hear(s, a, world.size), d, strict)
  {
    match a
    case Begin(e) => BeginStands(x, s, e, world.size, d, strict);
    case Extend(e) => ExtendStands(x, s, e, world.size, d, strict);
    case End(e) => EndStands(x, s, e, world.size, d, strict);
    case Purge(work, drafts) =>
      PurgeScans(world, x, s.queue, work, d, strict);
      ScanFrom(x, s.queue, d, strict);
    case Clear => ScanFrom(x, s.queue, d, strict);
  }

  // ----- never two episodes open -----

  /** Strictly well formed, and only an episode the subscriber is eligible for is open. */
  ghost predicate Steady(x: Standing, s: Subscriber, d: Draft) {
    Stands(x, s, d, true) && (Scan(x, s.queue, d, true).Open? ==> d in s.eligible)
  }

  lemma BeginSteady(x: Standing, s: Subscriber, e: Event, size: Event -> nat, d: Draft)
    requires Steady(x, s, d) && e.payload == Started && (e.Of(d) ==> d !in s.eligible)
    ensures var next := Hear(s, Begin(e), size); next.overloaded || Steady(x, next, d)
  {
    BeginStands(x, s, e, size, d, true);
    ScanPlace(x, s.queue, e, PlaceStructural(s.queue), d, true);
  }

  lemma EndSteady(x: Standing, s: Subscriber, e: Event, size: Event -> nat, d: Draft)
    requires Steady(x, s, d) && e.payload.Abandoned?
    ensures var next := Hear(s, End(e), size); next.overloaded || Steady(x, next, d)
  {
    EndStands(x, s, e, size, d, true);
    ScanPlace(x, s.queue, e, PlaceStructural(s.queue), d, true);
  }

  lemma ExtendSteady(x: Standing, s: Subscriber, e: Event, size: Event -> nat, d: Draft)
    requires Steady(x, s, d) && e.payload.Delta?
    ensures Steady(x, Hear(s, Extend(e), size), d)
  {
    ExtendStands(x, s, e, size, d, true);
    var p := PlaceDelta(s.queue, e, size);
    if e.identity.draft in s.eligible && e.payload.sequence > s.eligible[e.identity.draft] && !e.Of(d) {
      ScanPlace(x, s.queue, e, p, d, true);
    }
  }

  /** A broadcast that is not the end of all drafts of the work keeps a draft steady, or overloads the subscriber. */
  lemma HearSteady(world: World, stored: Stored, x: Standing, s: Subscriber, a: Broadcast, d: Draft)
    requires Allowed(world, stored, a) && Steady(x, s, d) && QueueOwned(world, s.queue)
    requires d in s.eligible ==> d in stored
    requires !a.Clear? && (a.Purge? ==> !OfWork(world, d, a.work))
    ensures WellFormed(a)
    ensures var next := Hear(s, a, world.size); next.overloaded || Steady(x, next, d)
  {
    match a
    case Begin(e) => BeginSteady(x, s, e, world.size, d);
    case Extend(e) => ExtendSteady(x, s, e, world.size, d);
    case End(e) => EndSteady(x, s, e, world.size, d);
    case Purge(work, _) => PurgeScans(world, x, s.queue, work, d, true);
  }

  /** The broker and the subscriber hold nothing of `d`. */
  ghost predicate Idle(stored: Stored, s: Subscriber, d: Draft) {
    d !in stored && d !in s.eligible && forall e :: e in s.queue ==> !e.Of(d)
  }

  lemma {:induction false} RetainPart(q: seq<Event>, work: Work)
    ensures forall e :: e in Retain(q, work) ==> e in q && e.identity.work != work
  {
    if q != [] {
      RetainPart(q[1..], work);
    }
  }

  lemma HearIdle(world: World, stored: Stored, s: Subscriber, a: Broadcast, d: Draft)
    requires Allowed(world, stored, a) && Idle(stored, s, d) && !(a.Begin? && a.event.Of(d))
    ensures WellFormed(a) && Idle(After(stored, a), Hear(s, a, world.size), d)
  {
    if a.Purge? {
      RetainPart(s.queue, a.work);
    }
  }
}
