/** When a full queue costs a subscriber an event, and when it overwhelms the subscriber. */
module DraftPressure {
  import opened Prelude
  import opened DraftEvents
  import opened DraftBroker
  import opened DraftLedger
  import opened DraftStreams
  import opened DraftFidelity
  import opened DraftAccounts
  import opened DraftTheorems
  import opened DraftRuns
  import opened DraftGuarantees

  // ----- what a full queue does -----

  /** A queued frame may hold an event: the structural event itself, or a delta frame that reaches past the delta. */
  predicate Bears(frame: Event, e: Event) {
    && frame.identity == e.identity
    && if e.payload.Delta?
       then frame.payload.Delta? && frame.payload.kind == e.payload.kind && e.payload.sequence <= frame.payload.sequence
       else frame == e
  }

  /** A delta can be joined to a frame: same draft and kind, and the joined frame is not too long. */
  predicate Joinable(last: Event, e: Event, size: Event -> nat) {
    && last.payload.Delta? && e.payload.Delta? && last.identity.draft == e.identity.draft && last.payload.kind == e.payload.kind
    && size(Event(last.identity, Delta(e.payload.sequence, e.payload.kind, last.payload.text + e.payload.text))) <= MAX_FRAME_BYTES
  }

  /** The oldest delta frame of a queue holds the event. */
  ghost predicate InOldestDelta(q: seq<Event>, e: Event) {
    exists i :: 0 <= i < |q| && q[i].payload.Delta? && Bears(q[i], e) && forall h :: 0 <= h < i ==> !q[h].payload.Delta?
  }

  /**
   * Hearing `a` on a full queue costs the subscriber event `e`: a delta that cannot be joined to the
   * last frame, or one in the oldest delta frame, whose place a structural event takes.
   */
  ghost predicate Squeezes(q: seq<Event>, a: Broadcast, e: Event, size: Event -> nat) {
    && |q| == OUTBOUND_FRAMES
    && match a
       case Extend(next) => next == e && !Joinable(q[|q| - 1], e, size)
       case Begin(_) => InOldestDelta(q, e)
       case End(_) => InOldestDelta(q, e)
       case _ => false
  }

  /** Hearing `a` overwhelms the subscriber: a structural event finds a full queue of structural events. */
  ghost predicate Overwhelms(q: seq<Event>, a: Broadcast) {
    (a.Begin? || a.End?) && |q| == OUTBOUND_FRAMES && forall i :: 0 <= i < |q| ==> !q[i].payload.Delta?
  }

  lemma MadeBears(log: seq<Event>, x: Item, n: nat)
    requires Made(log, x) && n in x.sources
    ensures n < |log| && Bears(x.event, log[n])
  {
    DeltaSources(log, x, n);
    var i :| 0 <= i < |x.sources| && x.sources[i] == n;
    if log[n].payload.Delta? && i < |x.sources| - 1 {
      assert log[x.sources[i]].payload.sequence < log[x.sources[|x.sources| - 1]].payload.sequence;
    }
  }

  // ----- one broadcast -----

  /** Event `n` is lost to pressure in `next`, and was not in `w`. */
  predicate NewlyPressed(w: Watched, next: Watched, n: nat) {
    n in next.tape.lost && next.tape.lost[n] == Pressure && !(n in w.tape.lost && w.tape.lost[n] == Pressure)
  }

  lemma EvictedOldest(world: World, w: Watched, k: nat, n: nat)
    requires Bounded(w) && Traced(world, w.tape.items, w.tape.log)
    requires PlaceStructural(Queue(w)) == Evict(k) && n in Sources([w.tape.items[w.delivered + k]])
    ensures |Queue(w)| == OUTBOUND_FRAMES && n < |w.tape.log| && InOldestDelta(Queue(w), w.tape.log[n])
  {
    var x, q := w.tape.items[w.delivered + k], Queue(w);
    assert x in w.tape.items && n in x.sources;
    MadeBears(w.tape.log, x, n);
    assert q[k] == x.event;
    forall h | 0 <= h < k ensures !q[h].payload.Delta? {
      assert q[h].Structural();
    }
  }

  lemma StructuralPressed(world: World, w: Watched, e: Event, eligible: map<Draft, nat>, n: nat)
    requires Bounded(w) && Traced(world, w.tape.items, w.tape.log)
    requires var p := PlaceStructural(Queue(w));
             Fits(w.tape.items, w.delivered, e, p) && NewlyPressed(w, Taken(w, e, p, eligible), n)
    ensures |Queue(w)| == OUTBOUND_FRAMES && n < |w.tape.log| && InOldestDelta(Queue(w), w.tape.log[n])
  {
    var p := PlaceStructural(Queue(w));
    assert p.Evict?;
    EvictedOldest(world, w, p.at, n);
  }

  lemma DeltaPressed(w: Watched, e: Event, size: Event -> nat, eligible: map<Draft, nat>, n: nat)
    requires Bounded(w) && e.payload.Delta?
    requires var p := PlaceDelta(Queue(w), e, size);
             Fits(w.tape.items, w.delivered, e, p) && NewlyPressed(w, Taken(w, e, p, eligible), n)
    ensures n == |w.tape.log| && Squeezes(Queue(w), Extend(e), e, size)
  {
    var q := Queue(w);
    assert PlaceDelta(q, e, size) == Drop;
    if Mergeable(q[|q| - 1], e) {
      assert Coalesce(q[|q| - 1], e) ==
             Event(q[|q| - 1].identity, Delta(e.payload.sequence, e.payload.kind, q[|q| - 1].payload.text + e.payload.text));
    }
  }

  /** A broadcast that costs an event costs it on a full queue. */
  lemma ListenPressed(world: World, w: Watched, a: Broadcast, n: nat)
    requires Bounded(w) && Traced(world, w.tape.items, w.tape.log) && WellFormed(a)
    requires NewlyPressed(w, Listen(w, a, world.size), n)
    ensures n < |w.tape.log + SpokenBy(a)| && Squeezes(Queue(w), a, (w.tape.log + SpokenBy(a))[n], world.size)
  {
    match a
    case Begin(e) =>
      var p := PlaceStructural(Queue(w));
      QueueFits(w, e, p);
      StructuralPressed(world, w, e, if p.Overload? then w.eligible else w.eligible[e.identity.draft := 0], n);
    case Extend(e) =>
      QueueFits(w, e, PlaceDelta(Queue(w), e, world.size));
      DeltaPressed(w, e, world.size, w.eligible[e.identity.draft := e.payload.sequence], n);
    case End(e) =>
      QueueFits(w, e, PlaceStructural(Queue(w)));
      StructuralPressed(world, w, e, w.eligible - {e.identity.draft}, n);
    case Purge(work, drafts) => assert false;
    case Clear => assert false;
  }

  // ----- one call -----

  /** The queue of a subscriber after the first `j` of some broadcasts. */
  ghost function QueueAfter(s: Subscriber, says: seq<Broadcast>, j: nat, size: Event -> nat): seq<Event>
    requires j <= |says| && forall a :: a in says ==> WellFormed(a)
  {
    HearAll(s, says[..j], size).queue
  }

  lemma QueueAfterNext(s: Subscriber, says: seq<Broadcast>, j: nat, size: Event -> nat)
    requires says != [] && j <= |says| - 1 && forall a :: a in says ==> WellFormed(a)
    ensures QueueAfter(s, says, j + 1, size) == QueueAfter(Hear(s, says[0], size), says[1..], j, size)
  {
    assert says[..j + 1][1..] == says[1..][..j];
  }

  /** A broadcast of a faithful run that costs an event. */
  lemma FaithfulPressed(world: World, stored: Stored, w: Watched, a: Broadcast, n: nat)
    requires Faithful(world, stored, w) && WellFormed(a) && NewlyPressed(w, Listen(w, a, world.size), n)
    ensures n < |w.tape.log + SpokenBy(a)| && Squeezes(Queue(w), a, (w.tape.log + SpokenBy(a))[n], world.size)
  {
    ListenPressed(world, w, a, n);
  }

  lemma {:induction false} CallPressed(world: World, stored: Stored, w: Watched, says: seq<Broadcast>, n: nat) returns (j: nat)
    requires Faithful(world, stored, w) && Disciplined(world, stored, says) && forall a :: a in says ==> WellFormed(a)
    requires NewlyPressed(w, ListenAll(w, says, world.size), n)
    ensures j < |says| && n < |w.tape.log + Spoken(says)|
    ensures Squeezes(QueueAfter(SubscriberOf(w), says, j, world.size), says[j], (w.tape.log + Spoken(says))[n], world.size)
    decreases |says|
  {
    var m, rest := Listen(w, says[0], world.size), says[1..];
    ListenErases(w, says[0], world.size);
    Associates(w.tape.log, SpokenBy(says[0]), Spoken(rest));
    if NewlyPressed(w, m, n) {
      j := 0;
      FaithfulPressed(world, stored, w, says[0], n);
      assert QueueAfter(SubscriberOf(w), says, 0, world.size) == Queue(w) by { assert says[..0] == []; }
    } else {
      ListenFaithful(world, stored, w, says[0]);
      j := CallPressed(world, After(stored, says[0]), m, rest, n);
      QueueAfterNext(SubscriberOf(w), says, j, world.size);
      j := j + 1;
    }
  }

  // ----- whole runs -----

  /** What the subscriber hears in call `k`, and its queue before the `j`-th broadcast of it. */
  ghost predicate HearsAt(seen: Seen, after: seq<Op>, size: Event -> nat, k: nat, j: nat, q: seq<Event>, a: Broadcast) {
    && k < |after| && after[k] != Receive(seen.id)
    && var b := Run(seen.joined, after[..k], size);
    && var says := Effects(b.core, after[k], size).says;
    && seen.id in b.subscribers && j < |says| && (forall x :: x in says ==> WellFormed(x))
    && a == says[j] && q == QueueAfter(b.subscribers[seen.id], says, j, size)
  }

  /** Some broadcast of the run cost the subscriber this event. */
  ghost predicate Squeezed(seen: Seen, after: seq<Op>, size: Event -> nat, e: Event) {
    exists k: nat, j: nat, q, a :: HearsAt(seen, after, size, k, j, q, a) && Squeezes(q, a, e, size)
  }

  /** Some broadcast of the run overwhelmed the subscriber. */
  ghost predicate Swamped(seen: Seen, after: seq<Op>, size: Event -> nat) {
    exists k: nat, j: nat, q, a :: HearsAt(seen, after, size, k, j, q, a) && Overwhelms(q, a)
  }

  /** The watch before call `k` and after it. */
  lemma CallWatched(world: World, before: seq<Op>, after: seq<Op>, seen: Seen, k: nat)
    requires Sees(world, before, after, seen) && k < |after|
    ensures var b, w := Run(seen.joined, after[..k], world.size), Subscription(before, after[..k], world.size);
            && Watches(b, seen.id, w) && w.tape.log == Told(Run(NEW, before, world.size).core, after[..k], world.size)
            && b.core == CoreAfter(Run(NEW, before, world.size).core, after[..k], world.size)
            && Subscription(before, after[..k + 1], world.size) == Watch(w, b.core, after[k], seen.id, world.size)
  {
    var start, front, size := Run(NEW, before, world.size), after[..k], world.size;
    SubscriberWatched(before, front, size);
    LastCore(before, front, size);
    assert after[..k + 1] == front + [after[k]];
    WatchLast(UNHEARD, start.core, front, after[k], start.nextId, size);
  }

  /** The watch before call `k` is faithful, and what the call broadcasts is in order. */
  lemma CallFaithful(world: World, before: seq<Op>, after: seq<Op>, k: nat) returns (stored: Stored)
    requires AllProper(world, before) && AllProper(world, after) && k < |after|
    ensures Faithful(world, stored, Subscription(before, after[..k], world.size))
    ensures var core := CoreAfter(Run(NEW, before, world.size).core, after[..k], world.size);
            Disciplined(world, stored, Effects(core, after[k], world.size).says)
  {
    var start, front := Run(NEW, before, world.size), after[..k];
    var first := StartKept(world, before);
    RunKept(world, first, start.core, front);
    FreshFaithful(world, first);
    RunFaithful(world, first, start.core, UNHEARD, front, start.nextId);
    stored := StoredAfter(first, start.core, front, world.size);
    EffectsGood(world, stored, CoreAfter(start.core, front, world.size), after[k]);
  }

  /** The events told before call `k`, and by it, come first. */
  lemma ToldSoFar(core: Core, after: seq<Op>, k: nat, size: Event -> nat)
    requires k < |after|
    ensures Told(core, after[..k], size) + Spoken(Effects(CoreAfter(core, after[..k], size), after[k], size).says) <=
            Told(core, after, size)
  {
    var rest := after[k..];
    assert after == after[..k] + rest;
    ToldConcat(core, after[..k], rest, size);
    var now := CoreAfter(core, after[..k], size);
    assert Spoken(Effects(now, rest[0], size).says) <= Told(now, rest, size);
  }

  /** Call `k` cost event `n`. */
  lemma CallSqueezed(world: World, before: seq<Op>, after: seq<Op>, seen: Seen, k: nat, n: nat)
    requires Sees(world, before, after, seen) && k < |after| && after[k] != Receive(seen.id)
    requires NewlyPressed(Subscription(before, after[..k], world.size), Subscription(before, after[..k + 1], world.size), n)
    ensures n < |seen.told| && Squeezed(seen, after, world.size, seen.told[n])
  {
    var w, b := Subscription(before, after[..k], world.size), Run(seen.joined, after[..k], world.size);
    CallWatched(world, before, after, seen, k);
    var stored := CallFaithful(world, before, after, k);
    ToldSoFar(Run(NEW, before, world.size).core, after, k, world.size);
    var says := Effects(b.core, after[k], world.size).says;
    EffectsWellFormed(b.core, after[k], world.size);
    var j := CallPressed(world, stored, w, says, n);
    assert HearsAt(seen, after, world.size, k, j, QueueAfter(b.subscribers[seen.id], says, j, world.size), says[j]);
  }

  lemma {:induction false} LostSqueezed(world: World, before: seq<Op>, after: seq<Op>, seen: Seen, m: nat, n: nat)
    requires Sees(world, before, after, seen) && m <= |after|
    requires var lost := Subscription(before, after[..m], world.size).tape.lost; n in lost && lost[n] == Pressure
    ensures n < |seen.told| && Squeezed(seen, after, world.size, seen.told[n])
    decreases m
  {
    if m > 0 {
      var k := m - 1;
      var w, next := Subscription(before, after[..k], world.size), Subscription(before, after[..m], world.size);
      CallWatched(world, before, after, seen, k);
      if NewlyPressed(w, next, n) {
        CallSqueezed(world, before, after, seen, k, n);
      } else {
        LostSqueezed(world, before, after, seen, k, n);
      }
    }
  }

  // ----- overload -----

  lemma HearOverwhelms(s: Subscriber, a: Broadcast, size: Event -> nat)
    requires WellFormed(a) && !s.overloaded && Hear(s, a, size).overloaded && |s.queue| <= OUTBOUND_FRAMES
    ensures Overwhelms(s.queue, a)
  {
    assert PlaceStructural(s.queue) == Overload;
    forall i | 0 <= i < |s.queue| ensures !s.queue[i].payload.Delta? {
      assert s.queue[i].Structural();
    }
  }

  lemma {:induction false} RetainShorter(q: seq<Event>, work: Work)
    ensures |Retain(q, work)| <= |q|
  {
    if q != [] {
      RetainShorter(q[1..], work);
    }
  }

  lemma HearBounded(s: Subscriber, a: Broadcast, size: Event -> nat)
    requires WellFormed(a) && |s.queue| <= OUTBOUND_FRAMES
    ensures |Hear(s, a, size).queue| <= OUTBOUND_FRAMES
  {
    if a.Purge? {
      RetainShorter(s.queue, a.work);
    }
  }

  lemma {:induction false} CallOverwhelms(s: Subscriber, says: seq<Broadcast>, size: Event -> nat) returns (j: nat)
    requires (forall a :: a in says ==> WellFormed(a)) && |s.queue| <= OUTBOUND_FRAMES
    requires !s.overloaded && HearAll(s, says, size).overloaded
    ensures j < |says| && Overwhelms(QueueAfter(s, says, j, size), says[j])
    decreases |says|
  {
    var m := Hear(s, says[0], size);
    if m.overloaded {
      j := 0;
      HearOverwhelms(s, says[0], size);
      assert QueueAfter(s, says, 0, size) == s.queue by { assert says[..0] == []; }
    } else {
      HearBounded(s, says[0], size);
      j := CallOverwhelms(m, says[1..], size);
      QueueAfterNext(s, says, j, size);
      j := j + 1;
    }
  }

  lemma FaithfulBounded(world: World, stored: Stored, w: Watched)
    requires Faithful(world, stored, w)
    ensures |SubscriberOf(w).queue| <= OUTBOUND_FRAMES
  {
  }

  /** Call `k` overwhelmed the subscriber. */
  lemma CallOverwhelmed(world: World, before: seq<Op>, after: seq<Op>, seen: Seen, k: nat)
    requires Sees(world, before, after, seen) && k < |after| && after[k] != Receive(seen.id)
    requires !Subscription(before, after[..k], world.size).overloaded
    requires Subscription(before, after[..k + 1], world.size).overloaded
    ensures Swamped(seen, after, world.size)
  {
    var w, b := Subscription(before, after[..k], world.size), Run(seen.joined, after[..k], world.size);
    CallWatched(world, before, after, seen, k);
    var stored := CallFaithful(world, before, after, k);
    FaithfulBounded(world, stored, w);
    var says := Effects(b.core, after[k], world.size).says;
    EffectsWellFormed(b.core, after[k], world.size);
    ListenAllErases(w, says, world.size);
    var j := CallOverwhelms(SubscriberOf(w), says, world.size);
    assert HearsAt(seen, after, world.size, k, j, QueueAfter(b.subscribers[seen.id], says, j, world.size), says[j]);
  }

  lemma {:induction false} RunOverwhelmed(world: World, before: seq<Op>, after: seq<Op>, seen: Seen, m: nat)
    requires Sees(world, before, after, seen) && m <= |after| && Subscription(before, after[..m], world.size).overloaded
    ensures Swamped(seen, after, world.size)
    decreases m
  {
    if m > 0 {
      var k := m - 1;
      CallWatched(world, before, after, seen, k);
      if Subscription(before, after[..k], world.size).overloaded {
        RunOverwhelmed(world, before, after, seen, k);
      } else {
        CallOverwhelmed(world, before, after, seen, k);
      }
    }
  }

  /**
   * On every run a subscriber is overloaded only if a structural event once found its queue full of
   * 16 structural events.
   */
  lemma OverloadMeansFull(world: World, before: seq<Op>, after: seq<Op>, seen: Seen)
    requires Sees(world, before, after, seen) && seen.last.subscribers[seen.id].overloaded
    ensures Swamped(seen, after, world.size)
  {
    var w, stored := SeenWatch(world, before, after, seen);
    assert after[..|after|] == after;
    RunOverwhelmed(world, before, after, seen, |after|);
  }
}
