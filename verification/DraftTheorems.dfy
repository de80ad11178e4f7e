/** Whole runs of the broker, as each of its subscribers sees them. */
module DraftTheorems {
  import opened DraftEvents
  import opened DraftReadings
  import opened DraftLedger
  import opened DraftQueues
  import opened DraftStreams
  import opened DraftFidelity
  import opened DraftAccounts

  // ----- tapes -----

  ghost predicate Recorded(world: World, t: Tape) {
    && Traced(world, t.items, t.log)
    && Accounted(t)
    && (forall d, text :: Reads(t, d, text))
  }

  /** What a placement may be given. */
  ghost predicate Placeable(world: World, t: Tape, from: nat, e: Event, p: Placement) {
    && Fits(t.items, from, e, p) && Due(t.log, e)
    && e.identity == world.owner(e.identity.draft) && (e.payload.Delta? ==> world.size(e) <= MAX_FRAME_BYTES)
    && (p.Drop? ==> !e.Structural())
    && (p.Merge? ==> var last := t.items[|t.items| - 1].event;
                     last.payload.sequence < e.payload.sequence && world.size(Coalesce(last, e)) <= MAX_FRAME_BYTES)
  }

  lemma TracedEvict(world: World, items: seq<Item>, log: seq<Event>, k: nat)
    requires Traced(world, items, log) && k < |items|
    ensures Traced(world, items[..k] + items[k + 1..], log)
  {
  }

  lemma TracedPut(world: World, t: Tape, from: nat, e: Event, p: Placement)
    requires Traced(world, t.items, t.log) && Placeable(world, t, from, e, p)
    ensures Traced(world, Put(t, from, e, p).items, t.log + [e])
  {
    match p
    case Append => TracedAppend(world, t.items, t.log, e);
    case Evict(k) =>
      TracedEvict(world, t.items, t.log, from + k);
      TracedAppend(world, t.items[..from + k] + t.items[from + k + 1..], t.log, e);
    case Merge => TracedMerge(world, t.items, t.log, e);
    case Drop => TracedSkip(world, t.items, t.log, e);
    case Overload => TracedSkip(world, t.items, t.log, e);
  }

  lemma RecordedPut(world: World, t: Tape, from: nat, e: Event, p: Placement)
    requires Recorded(world, t) && Placeable(world, t, from, e, p)
    ensures Recorded(world, Put(t, from, e, p))
  {
    TracedPut(world, t, from, e, p);
    AccountedPut(world, t, from, e, p);
    forall d, text
      ensures Reads(Put(t, from, e, p), d, text)
    {
      ReadsPut(world, t, from, e, p, d, text);
    }
  }

  lemma RecordedSkip(world: World, t: Tape, e: Event)
    requires Recorded(world, t) && !e.payload.Started? && e.identity == world.owner(e.identity.draft)
    ensures Recorded(world, Skip(t, e))
  {
    TracedSkip(world, t.items, t.log, e);
    AccountedSkip(t, e);
    forall d, text
      ensures Reads(Skip(t, e), d, text)
    {
      ReadsSkip(t, e, d, text);
    }
  }

  lemma RecordedRetain(world: World, t: Tape, from: nat, work: Work)
    requires Recorded(world, t) && from <= |t.items|
    ensures Recorded(world, Cut(t, t.items[..from] + RetainItems(t.items[from..], work), Finalization(work)))
  {
    var q := t.items[from..];
    assert t.items == t.items[..from] + q;
    OrderedSplit(t.items[..from], q);
    OrderedRetain(q, work);
    RetainErases(q, work);
    TracedCut(world, t.items, t.log, from, RetainItems(q, work));
    AccountedRetain(world, t, from, work);
    forall d, text
      ensures Reads(Cut(t, t.items[..from] + RetainItems(q, work), Finalization(work)), d, text)
    {
      ReadsRetain(world, t, from, work, d, text);
    }
  }

  lemma RecordedClear(world: World, t: Tape, from: nat)
    requires Recorded(world, t) && from <= |t.items|
    ensures Recorded(world, Cut(t, t.items[..from], Closing))
  {
    TracedCut(world, t.items, t.log, from, []);
    assert t.items[..from] + [] == t.items[..from];
    AccountedClear(t, from);
    forall d, text
      ensures Reads(Cut(t, t.items[..from], Closing), d, text)
    {
      ReadsClear(world, t, from, d, text);
    }
  }

  // ----- standings -----

  lemma EventsOwned(world: World, items: seq<Item>, log: seq<Event>)
    requires Traced(world, items, log)
    ensures QueueOwned(world, Events(items))
  {
    forall e | e in Events(items)
      ensures e.identity == world.owner(e.identity.draft)
    {
      var i :| 0 <= i < |items| && Events(items)[i] == e;
      MadeOwned(world, log, items[i]);
    }
  }

  /** Where the events it was delivered leave a draft. */
  ghost function Left(w: Watched, d: Draft): Standing
    requires w.delivered <= |w.tape.items|
  {
    Scan(Shut, Delivery(w), d)
  }

  // ----- one broadcast -----

  /** A subscriber is eligible for exactly the stored drafts whose start it was told of and could take. */
  ghost predicate Entitled(stored: Stored, eligible: map<Draft, nat>, log: seq<Event>, overloaded: bool) {
    && (forall d :: d in eligible ==> d in stored && eligible[d] <= stored[d] && Begun(log, d))
    && (forall d :: d in stored && Begun(log, d) && !overloaded ==> d in eligible)
  }

  ghost predicate Overwhelmed(lost: map<nat, Cause>, overloaded: bool) {
    forall n :: n in lost && lost[n] == Overloading ==> overloaded
  }

  /** Something was lost to pressure exactly when a drop was counted. */
  ghost predicate Pressed(lost: map<nat, Cause>, dropped: nat) {
    (exists n :: n in lost && lost[n] == Pressure) <==> dropped > 0
  }

  ghost predicate Fated(lost: map<nat, Cause>, overloaded: bool, dropped: nat) {
    Overwhelmed(lost, overloaded) && Pressed(lost, dropped)
  }

  /** The part that concerns the tape: bounds, provenance, accounts, eligibility and the causes of losses. */
  ghost predicate Audited(world: World, stored: Stored, w: Watched) {
    && Bounded(w)
    && Recorded(world, w.tape)
    && Entitled(stored, w.eligible, w.tape.log, w.overloaded)
    && Fated(w.tape.lost, w.overloaded, w.dropped)
  }

  /** What every broadcast and every receive keeps of a subscriber. */
  ghost predicate Faithful(world: World, stored: Stored, w: Watched) {
    Audited(world, stored, w) && forall d :: Stands(Left(w, d), SubscriberOf(w), d)
  }

  lemma QueueFits(w: Watched, e: Event, p: Placement)
    requires Bounded(w)
    requires p == PlaceStructural(Queue(w)) || (e.payload.Delta? && exists size :: p == PlaceDelta(Queue(w), e, size))
    ensures Fits(w.tape.items, w.delivered, e, p)
    ensures var placed := PlaceItem(w.tape.items, w.delivered, e, |w.tape.log|, p);
            w.delivered <= |placed| <= w.delivered + OUTBOUND_FRAMES
  {
    PlaceErases(w.tape.items, w.delivered, e, |w.tape.log|, p);
  }

  /** `more` adds losses for one cause. */
  ghost predicate Adds(lost: map<nat, Cause>, more: map<nat, Cause>, cause: Cause) {
    && (forall n :: n in lost ==> n in more && more[n] == lost[n])
    && (forall n :: n in more && n !in lost ==> more[n] == cause)
  }

  lemma FatedMore(lost: map<nat, Cause>, more: map<nat, Cause>, cause: Cause, overloaded: bool, dropped: nat)
    requires Fated(lost, overloaded, dropped) && Adds(lost, more, cause)
    ensures cause == Pressure && more.Keys != lost.Keys ==> Fated(more, overloaded, dropped + 1)
    ensures cause == Overloading ==> Fated(more, true, dropped)
    ensures cause.Finalization? || cause == Closing ==> Fated(more, overloaded, dropped)
  {
    if cause == Pressure && more.Keys != lost.Keys {
      var n :| n in more && n !in lost;
      assert more[n] == Pressure;
    }
  }

  lemma FatedPut(world: World, t: Tape, from: nat, e: Event, p: Placement, overloaded: bool, dropped: nat)
    requires Traced(world, t.items, t.log) && Accounted(t) && Fits(t.items, from, e, p) && Fated(t.lost, overloaded, dropped)
    ensures Fated(Put(t, from, e, p).lost, overloaded || p.Overload?, dropped + Drops(p))
  {
    var lost := Put(t, from, e, p).lost;
    DueBound(t.log);
    if p.Evict? {
      var x := t.items[from + p.at];
      assert Made(t.log, x);
      SourcesHas([x], x, x.sources[0]);
      SourcesHas(t.items, x, x.sources[0]);
      assert x.sources[0] in lost && x.sources[0] !in t.lost;
      EvictSources(t.items, t.log, from + p.at);
      FatedMore(t.lost, lost, Pressure, overloaded, dropped);
    } else if p.Drop? || p.Overload? {
      assert |t.log| !in t.lost && |t.log| in lost;
      FatedMore(t.lost, lost, if p.Drop? then Pressure else Overloading, overloaded, dropped);
    }
  }

  lemma TakenAudited(world: World, stored: Stored, w: Watched, e: Event, p: Placement, eligible: map<Draft, nat>)
    requires Bounded(w) && Recorded(world, w.tape) && Fated(w.tape.lost, w.overloaded, w.dropped)
    requires p == PlaceStructural(Queue(w)) || (e.payload.Delta? && exists size :: p == PlaceDelta(Queue(w), e, size))
    requires Placeable(world, w.tape, w.delivered, e, p)
    requires Entitled(stored, eligible, w.tape.log + [e], w.overloaded || p.Overload?)
    ensures Audited(world, stored, Taken(w, e, p, eligible))
  {
    QueueFits(w, e, p);
    RecordedPut(world, w.tape, w.delivered, e, p);
    FatedPut(world, w.tape, w.delivered, e, p, w.overloaded, w.dropped);
  }

  lemma StartEntitled(stored: Stored, eligible: map<Draft, nat>, log: seq<Event>, overloaded: bool, e: Event,
                      over: bool)
    requires Entitled(stored, eligible, log, overloaded) && e.payload.Started?
    ensures Entitled(stored[e.identity.draft := 0], if over then eligible - {e.identity.draft} else eligible[e.identity.draft := 0],
                     log + [e], overloaded || over)
  {
  }

  lemma StopEntitled(stored: Stored, eligible: map<Draft, nat>, log: seq<Event>, overloaded: bool, e: Event, over: bool)
    requires Entitled(stored, eligible, log, overloaded) && e.payload.Abandoned?
    ensures Entitled(stored - {e.identity.draft}, eligible - {e.identity.draft}, log + [e], overloaded || over)
  {
  }

  lemma DeltaEntitled(stored: Stored, eligible: map<Draft, nat>, log: seq<Event>, overloaded: bool, e: Event)
    requires Entitled(stored, eligible, log, overloaded) && e.payload.Delta? && e.identity.draft in stored
    requires stored[e.identity.draft] <= e.payload.sequence
    ensures Entitled(stored[e.identity.draft := e.payload.sequence], eligible, log + [e], overloaded)
    ensures e.identity.draft in eligible ==>
              Entitled(stored[e.identity.draft := e.payload.sequence],
                       eligible[e.identity.draft := e.payload.sequence], log + [e], overloaded)
  {
  }

  lemma SkipAudited(world: World, stored: Stored, w: Watched, e: Event)
    requires Audited(world, stored, w) && !e.payload.Started? && e.identity == world.owner(e.identity.draft)
    requires Begun(w.tape.log, e.identity.draft) ==> w.overloaded
    requires Entitled(stored, w.eligible, w.tape.log + [e], w.overloaded)
    ensures Audited(world, stored, w.(tape := Skip(w.tape, e)))
  {
    RecordedSkip(world, w.tape, e);
    DueBound(w.tape.log);
    assert |w.tape.log| !in w.tape.lost;
    FatedMore(w.tape.lost, Skip(w.tape, e).lost, Overloading, w.overloaded, w.dropped);
  }

  lemma BeginAudited(world: World, stored: Stored, w: Watched, e: Event)
    requires Audited(world, stored, w) && Allowed(world, stored, Begin(e))
    ensures Audited(world, After(stored, Begin(e)), Listen(w, Begin(e), world.size))
  {
    var p, d0 := PlaceStructural(Queue(w)), e.identity.draft;
    var eligible := if p.Overload? then w.eligible else w.eligible[d0 := 0];
    QueueFits(w, e, p);
    assert Entitled(stored[d0 := 0], eligible, w.tape.log + [e], w.overloaded || p.Overload?) by {
      StartEntitled(stored, w.eligible, w.tape.log, w.overloaded, e, p.Overload?);
      assert w.eligible - {d0} == w.eligible;
    }
    TakenAudited(world, stored[d0 := 0], w, e, p, eligible);
  }

  lemma EndAudited(world: World, stored: Stored, w: Watched, e: Event)
    requires Audited(world, stored, w) && Allowed(world, stored, End(e))
    ensures Audited(world, After(stored, End(e)), Listen(w, End(e), world.size))
  {
    var p, d0 := PlaceStructural(Queue(w)), e.identity.draft;
    if d0 in w.eligible {
      QueueFits(w, e, p);
      StopEntitled(stored, w.eligible, w.tape.log, w.overloaded, e, p.Overload?);
      TakenAudited(world, stored - {d0}, w, e, p, w.eligible - {d0});
    } else {
      assert w.eligible - {d0} == w.eligible;
      StopEntitled(stored, w.eligible, w.tape.log, w.overloaded, e, false);
      SkipAudited(world, stored - {d0}, w, e);
    }
  }

  lemma DeltaPlaceable(world: World, w: Watched, e: Event, p: Placement)
    requires Bounded(w) && e.payload.Delta? && p == PlaceDelta(Queue(w), e, world.size) && Due(w.tape.log, e)
    requires e.identity == world.owner(e.identity.draft) && world.size(e) <= MAX_FRAME_BYTES
    requires Stands(Left(w, e.identity.draft), SubscriberOf(w), e.identity.draft)
    requires e.identity.draft in w.eligible && w.eligible[e.identity.draft] < e.payload.sequence
    ensures Placeable(world, w.tape, w.delivered, e, p)
  {
    QueueFits(w, e, p);
    if p.Merge? {
      ScanLast(Left(w, e.identity.draft), Queue(w), e.identity.draft);
      assert Queue(w)[|Queue(w)| - 1] == w.tape.items[|w.tape.items| - 1].event;
    }
  }

  lemma ExtendAudited(world: World, stored: Stored, w: Watched, e: Event)
    requires Faithful(world, stored, w) && Allowed(world, stored, Extend(e))
    ensures Audited(world, After(stored, Extend(e)), Listen(w, Extend(e), world.size))
  {
    var p, d0 := PlaceDelta(Queue(w), e, world.size), e.identity.draft;
    var after := stored[d0 := e.payload.sequence];
    DeltaEntitled(stored, w.eligible, w.tape.log, w.overloaded, e);
    if d0 in w.eligible {
      QueueFits(w, e, p);
      DeltaPlaceable(world, w, e, p);
      TakenAudited(world, after, w, e, p, w.eligible[d0 := e.payload.sequence]);
    } else {
      SkipAudited(world, after, w, e);
    }
  }

  /** Losses to a finalization or a close leave the other causes alone. */
  lemma FatedCut(t: Tape, items: seq<Item>, cause: Cause, overloaded: bool, dropped: nat)
    requires Accounted(t) && Fated(t.lost, overloaded, dropped) && (cause.Finalization? || cause == Closing)
    ensures Fated(Cut(t, items, cause).lost, overloaded, dropped)
  {
    FatedMore(t.lost, Cut(t, items, cause).lost, cause, overloaded, dropped);
  }

  lemma PurgeAudited(world: World, stored: Stored, w: Watched, work: Work, drafts: set<Draft>)
    requires Audited(world, stored, w) && Allowed(world, stored, Purge(work, drafts))
    ensures Audited(world, After(stored, Purge(work, drafts)), Listen(w, Purge(work, drafts), world.size))
  {
    var items := w.tape.items[..w.delivered] + RetainItems(w.tape.items[w.delivered..], work);
    RecordedRetain(world, w.tape, w.delivered, work);
    RetainErases(w.tape.items[w.delivered..], work);
    FatedCut(w.tape, items, Finalization(work), w.overloaded, w.dropped);
  }

  lemma ClearAudited(world: World, stored: Stored, w: Watched)
    requires Audited(world, stored, w)
    ensures Audited(world, After(stored, Clear), Listen(w, Clear, world.size))
  {
    RecordedClear(world, w.tape, w.delivered);
    FatedCut(w.tape, w.tape.items[..w.delivered], Closing, w.overloaded, w.dropped);
  }

  lemma ListenAudited(world: World, stored: Stored, w: Watched, a: Broadcast)
    requires Faithful(world, stored, w) && Allowed(world, stored, a)
    ensures WellFormed(a) && Audited(world, After(stored, a), Listen(w, a, world.size))
  {
    match a
    case Begin(e) => BeginAudited(world, stored, w, e);
    case Extend(e) => ExtendAudited(world, stored, w, e);
    case End(e) => EndAudited(world, stored, w, e);
    case Purge(work, drafts) => PurgeAudited(world, stored, w, work, drafts);
    case Clear => ClearAudited(world, stored, w);
  }

  lemma ListenStands(world: World, stored: Stored, w: Watched, a: Broadcast, d: Draft)
    requires Faithful(world, stored, w) && Allowed(world, stored, a)
    ensures WellFormed(a)
    ensures var next := Listen(w, a, world.size);
            next.delivered <= |next.tape.items| && Stands(Left(next, d), SubscriberOf(next), d)
  {
    EventsOwned(world, w.tape.items, w.tape.log);
    EventsTake(w.tape.items, w.delivered);
    ListenErases(w, a, world.size);
    assert Stands(Left(w, d), SubscriberOf(w), d);
    HearStands(world, stored, Left(w, d), SubscriberOf(w), a, d);
  }

  lemma ListenFaithful(world: World, stored: Stored, w: Watched, a: Broadcast)
    requires Faithful(world, stored, w) && Allowed(world, stored, a)
    ensures WellFormed(a) && Faithful(world, After(stored, a), Listen(w, a, world.size))
  {
    ListenAudited(world, stored, w, a);
    forall d
      ensures var next := Listen(w, a, world.size); Stands(Left(next, d), SubscriberOf(next), d)
    {
      ListenStands(world, stored, w, a, d);
    }
  }

  lemma TakeFaithful(world: World, stored: Stored, w: Watched)
    requires Faithful(world, stored, w)
    ensures Faithful(world, stored, Take(w))
  {
    var next := Take(w);
    forall d
      ensures Stands(Left(next, d), SubscriberOf(next), d)
    {
      assert Stands(Left(w, d), SubscriberOf(w), d);
      if next != w {
        assert Delivery(next) == Delivery(w) + [Queue(w)[0]] && Queue(next) == Queue(w)[1..];
        ScanAppend(Shut, Delivery(w), Queue(w)[0], d);
      }
    }
  }

  // ----- one call -----

  ghost function ListenAll(w: Watched, actions: seq<Broadcast>, size: Event -> nat): (next: Watched)
    requires w.delivered <= |w.tape.items| && forall a :: a in actions ==> WellFormed(a)
    ensures next.delivered <= |next.tape.items|
    decreases |actions|
  {
    if actions == [] then w
    else
      ListenErases(w, actions[0], size);
      ListenAll(Listen(w, actions[0], size), actions[1..], size)
  }

  /** The events among some broadcasts. */
  function Spoken(actions: seq<Broadcast>): seq<Event> {
    if actions == [] then [] else SpokenBy(actions[0]) + Spoken(actions[1..])
  }

  lemma {:induction false} ListenAllErases(w: Watched, actions: seq<Broadcast>, size: Event -> nat)
    requires w.delivered <= |w.tape.items| && forall a :: a in actions ==> WellFormed(a)
    ensures Continues(w, ListenAll(w, actions, size), HearAll(SubscriberOf(w), actions, size), Spoken(actions))
    decreases |actions|
  {
    if actions != [] {
      var m := Listen(w, actions[0], size);
      ListenErases(w, actions[0], size);
      ListenAllErases(m, actions[1..], size);
      ContinuesTwice(w, m, ListenAll(m, actions[1..], size), SubscriberOf(m),
                     HearAll(SubscriberOf(m), actions[1..], size),
                     SpokenBy(actions[0]), Spoken(actions[1..]));
    }
  }

  lemma {:induction false} ListenAllFaithful(world: World, stored: Stored, w: Watched, actions: seq<Broadcast>)
    requires Faithful(world, stored, w) && Disciplined(world, stored, actions)
    ensures forall a :: a in actions ==> WellFormed(a)
    ensures Faithful(world, AfterAll(stored, actions), ListenAll(w, actions, world.size))
    decreases |actions|
  {
    if actions != [] {
      ListenFaithful(world, stored, w, actions[0]);
      ListenAllFaithful(world, After(stored, actions[0]), Listen(w, actions[0], world.size), actions[1..]);
    }
  }
}
