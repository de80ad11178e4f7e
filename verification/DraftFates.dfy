/** The fate of every event a subscriber is told of, over whole runs. */
module DraftFates {
  import opened DraftEvents
  import opened DraftReadings
  import opened DraftBroker
  import opened DraftStreams
  import opened DraftFidelity
  import opened DraftAccounts
  import opened DraftTheorems
  import opened DraftRuns
  import opened DraftGuarantees
  import opened DraftOffers
  import opened DraftPressure

  // ----- purges -----

  predicate Purging(cause: Cause) {
    cause.Finalization? || cause == Closing
  }

  /** A call that takes frames out of queues for this cause. */
  predicate Cuts(op: Op, cause: Cause) {
    (cause.Finalization? && op == Finalize(cause.work)) || (cause == Closing && op == CloseAdmission)
  }

  /** The events in the frames still queued. */
  ghost function Pending(w: Watched): set<nat>
    requires w.delivered <= |w.tape.items|
  {
    Sources(w.tape.items[w.delivered..])
  }

  /** Whatever `next` lost to a finalization or a close, it had lost before or `op` took from the queue. */
  ghost predicate Explains(w: Watched, next: Watched, op: Op)
    requires w.delivered <= |w.tape.items|
  {
    forall n :: n in next.tape.lost && Purging(next.tape.lost[n]) ==>
                  || (n in w.tape.lost && w.tape.lost[n] == next.tape.lost[n])
                  || (Cuts(op, next.tape.lost[n]) && n in Pending(w))
  }

  ghost predicate KeepsPurges(lost: map<nat, Cause>, more: map<nat, Cause>) {
    forall n :: n in more && Purging(more[n]) ==> n in lost && lost[n] == more[n]
  }

  lemma PutKeeps(t: Tape, from: nat, e: Event, p: Placement)
    requires Fits(t.items, from, e, p)
    ensures KeepsPurges(t.lost, Put(t, from, e, p).lost)
  {
  }

  lemma ListenKeeps(w: Watched, a: Broadcast, size: Event -> nat)
    requires w.delivered <= |w.tape.items| && WellFormed(a) && !a.Purge? && !a.Clear?
    ensures KeepsPurges(w.tape.lost, Listen(w, a, size).tape.lost)
  {
    match a
    case Begin(e) => PutKeeps(w.tape, w.delivered, e, PlaceStructural(Queue(w)));
    case Extend(e) => PutKeeps(w.tape, w.delivered, e, PlaceDelta(Queue(w), e, size));
    case End(e) => PutKeeps(w.tape, w.delivered, e, PlaceStructural(Queue(w)));
  }

  lemma {:induction false} ListenAllKeeps(w: Watched, actions: seq<Broadcast>, size: Event -> nat)
    requires w.delivered <= |w.tape.items| && forall a :: a in actions ==> WellFormed(a) && !a.Purge? && !a.Clear?
    ensures KeepsPurges(w.tape.lost, ListenAll(w, actions, size).tape.lost)
    decreases |actions|
  {
    if actions != [] {
      ListenErases(w, actions[0], size);
      ListenKeeps(w, actions[0], size);
      ListenAllKeeps(Listen(w, actions[0], size), actions[1..], size);
    }
  }

  lemma CutPending(w: Watched, rest: seq<Item>, n: nat)
    requires w.delivered <= |w.tape.items|
    requires n in Sources(w.tape.items) - Sources(w.tape.items[..w.delivered] + rest)
    ensures n in Pending(w)
  {
    assert w.tape.items == w.tape.items[..w.delivered] + w.tape.items[w.delivered..];
    SourcesConcat(w.tape.items[..w.delivered], w.tape.items[w.delivered..]);
    SourcesConcat(w.tape.items[..w.delivered], rest);
  }

  lemma ListenCuts(w: Watched, a: Broadcast, size: Event -> nat, op: Op)
    requires w.delivered <= |w.tape.items|
    requires (a.Purge? && op == Finalize(a.work)) || (a.Clear? && op == CloseAdmission)
    ensures Explains(w, Listen(w, a, size), op)
  {
    var rest := if a.Purge? then RetainItems(w.tape.items[w.delivered..], a.work) else [];
    assert w.tape.items[..w.delivered] + [] == w.tape.items[..w.delivered];
    forall n | n in Sources(w.tape.items) - Sources(w.tape.items[..w.delivered] + rest)
      ensures n in Pending(w)
    {
      CutPending(w, rest, n);
    }
  }

  lemma WatchExplains(w: Watched, core: Core, op: Op, i: nat, size: Event -> nat)
    requires w.delivered <= |w.tape.items|
    ensures Explains(w, Watch(w, core, op, i, size), op)
  {
    var says := Effects(core, op, size).says;
    EffectsWellFormed(core, op, size);
    SaysPurge(core, op, size);
    if op != Receive(i) {
      if forall a :: a in says ==> !a.Purge? && !a.Clear? {
        ListenAllKeeps(w, says, size);
      } else {
        ListenErases(w, says[0], size);
        ListenCuts(w, says[0], size, op);
        assert says[1..] == [];
        assert ListenAll(w, says, size) == ListenAll(Listen(w, says[0], size), [], size);
      }
    }
  }

  /** Call `k` took event `n` out of the subscriber's queue. */
  ghost predicate CutAt(before: seq<Op>, after: seq<Op>, size: Event -> nat, n: nat, cause: Cause, k: nat) {
    k < |after| && Cuts(after[k], cause) && n in Pending(Subscription(before, after[..k], size))
  }

  ghost predicate Blamed(before: seq<Op>, after: seq<Op>, size: Event -> nat, n: nat, cause: Cause) {
    exists k: nat :: CutAt(before, after, size, n, cause, k)
  }

  /** Event `n` was lost to a finalization or a close before call `k`, or by it. */
  lemma PurgedStep(before: seq<Op>, after: seq<Op>, size: Event -> nat, k: nat, n: nat)
    requires k < |after|
    requires var lost := Subscription(before, after[..k + 1], size).tape.lost; n in lost && Purging(lost[n])
    ensures var was := Subscription(before, after[..k], size).tape.lost;
            var lost := Subscription(before, after[..k + 1], size).tape.lost;
            (n in was && was[n] == lost[n]) || CutAt(before, after, size, n, lost[n], k)
  {
    var w := Subscription(before, after[..k], size);
    var core := SubscriptionNext(before, after, k, size);
    WatchExplains(w, core, after[k], Run(NEW, before, size).nextId, size);
  }

  lemma {:induction false} LostBlamed(before: seq<Op>, after: seq<Op>, size: Event -> nat, m: nat, n: nat)
    requires m <= |after|
    requires var lost := Subscription(before, after[..m], size).tape.lost; n in lost && Purging(lost[n])
    ensures Blamed(before, after, size, n, Subscription(before, after[..m], size).tape.lost[n])
    decreases m
  {
    if m > 0 {
      PurgedStep(before, after, size, m - 1, n);
      var cause := Subscription(before, after[..m], size).tape.lost[n];
      if !CutAt(before, after, size, n, cause, m - 1) {
        LostBlamed(before, after, size, m - 1, n);
      }
    }
  }

  // ----- what a subscriber may lose -----

  ghost predicate Queues(b: Broker, i: nat, e: Event) {
    i in b.subscribers && exists frame :: frame in b.subscribers[i].queue && Bears(frame, e)
  }

  /** When call `k` came, the subscriber had been told of event `n` and its frame was still queued. */
  ghost predicate QueuedAt(seen: Seen, after: seq<Op>, size: Event -> nat, n: nat, k: nat) {
    && k < |after| && n < |seen.told| && n < |Told(seen.joined.core, after[..k], size)|
    && Queues(Run(seen.joined, after[..k], size), seen.id, seen.told[n])
  }

  /** Event `n` was still queued when its own work was finalized or the broker closed. */
  ghost predicate Purged(seen: Seen, after: seq<Op>, size: Event -> nat, n: nat) {
    exists k: nat :: QueuedAt(seen, after, size, n, k) && after[k] in {Finalize(seen.told[n].identity.work), CloseAdmission}
  }

  /**
   * Why an event is in no frame: a delta by pressure, when a full queue left no room for it and a drop
   * was counted; or because the subscriber was overloaded, by a full queue of structural events; or by
   * a purge.
   */
  ghost predicate Fate(seen: Seen, after: seq<Op>, size: Event -> nat, n: nat, cause: Cause)
    requires seen.id in seen.last.subscribers
  {
    && n < |seen.told|
    && match cause
       case Pressure =>
         !seen.told[n].Structural() && seen.last.subscribers[seen.id].dropped > 0 && Squeezed(seen, after, size, seen.told[n])
       case Overloading => seen.last.subscribers[seen.id].overloaded && Swamped(seen, after, size)
       case _ => Purged(seen, after, size, n)
  }

  /** What a subscriber has seen after the first `k` calls. */
  lemma SeenSoFar(world: World, before: seq<Op>, after: seq<Op>, seen: Seen, k: nat) returns (past: Seen)
    requires Sees(world, before, after, seen) && k <= |after|
    ensures Sees(world, before, after[..k], past) && past.joined == seen.joined && past.id == seen.id
    ensures past.told <= seen.told && past.told == Told(seen.joined.core, after[..k], world.size)
  {
    var front, b := after[..k], Run(NEW, before, world.size);
    var last := Run(seen.joined, front, world.size);
    SubscriberWatched(before, front, world.size);
    past := Seen(seen.joined, seen.id, last, Delivered(seen.joined, front, seen.id, world.size),
                 last.subscribers[seen.id].queue, Told(b.core, front, world.size));
    assert after == front + after[k..];
    ToldConcat(b.core, front, after[k..], world.size);
    StepCore(b, Subscribe, world.size);
  }

  /** An event still pending in a watch is in a frame of its queue. */
  lemma PendingQueued(world: World, w: Watched, n: nat)
    requires w.delivered <= |w.tape.items| && Traced(world, w.tape.items, w.tape.log) && n in Pending(w)
    ensures n < |w.tape.log| && exists frame :: frame in Queue(w) && Bears(frame, w.tape.log[n])
  {
    var q := w.tape.items[w.delivered..];
    var x :| x in q && n in x.sources;
    assert x in w.tape.items;
    MadeBears(w.tape.log, x, n);
    var j :| 0 <= j < |q| && q[j] == x;
    assert Queue(w)[j] == x.event;
  }

  lemma CutQueued(world: World, before: seq<Op>, after: seq<Op>, seen: Seen, n: nat, cause: Cause, k: nat)
    requires Sees(world, before, after, seen) && CutAt(before, after, world.size, n, cause, k)
    ensures QueuedAt(seen, after, world.size, n, k)
  {
    var past := SeenSoFar(world, before, after, seen, k);
    var w, stored := SeenWatch(world, before, after[..k], past);
    PendingQueued(world, w, n);
  }

  lemma PurgeFate(world: World, before: seq<Op>, after: seq<Op>, seen: Seen, n: nat)
    requires Sees(world, before, after, seen)
    requires var lost := Subscription(before, after, world.size).tape.lost; n in lost && Purging(lost[n])
    ensures n < |seen.told| && Purged(seen, after, world.size, n)
  {
    assert after[..|after|] == after;
    LostBlamed(before, after, world.size, |after|, n);
    var cause := Subscription(before, after, world.size).tape.lost[n];
    var k: nat :| CutAt(before, after, world.size, n, cause, k);
    CutQueued(world, before, after, seen, n, cause, k);
    CutMeans(world, before, after, seen, n, cause);
    assert QueuedAt(seen, after, world.size, n, k) && after[k] in {Finalize(seen.told[n].identity.work), CloseAdmission};
  }

  /** A finalization takes only events of its own work. */
  lemma CutMeans(world: World, before: seq<Op>, after: seq<Op>, seen: Seen, n: nat, cause: Cause)
    requires Sees(world, before, after, seen)
    requires var lost := Subscription(before, after, world.size).tape.lost; n in lost && lost[n] == cause
    ensures n < |seen.told| && (cause.Finalization? ==> seen.told[n].identity.work == cause.work)
    ensures cause == Pressure ==> !seen.told[n].Structural() && seen.last.subscribers[seen.id].dropped > 0
    ensures cause == Overloading ==> seen.last.subscribers[seen.id].overloaded
  {
    var w, stored := SeenWatch(world, before, after, seen);
    assert Excused(w.tape.log, n, cause);
  }

  lemma LostFate(world: World, before: seq<Op>, after: seq<Op>, seen: Seen, n: nat)
    requires Sees(world, before, after, seen) && n in Subscription(before, after, world.size).tape.lost
    ensures Fate(seen, after, world.size, n, Subscription(before, after, world.size).tape.lost[n])
  {
    var cause := Subscription(before, after, world.size).tape.lost[n];
    CutMeans(world, before, after, seen, n, cause);
    assert after[..|after|] == after;
    if cause == Pressure {
      LostSqueezed(world, before, after, seen, |after|, n);
    } else if cause == Overloading {
      OverloadMeansFull(world, before, after, seen);
    } else {
      PurgeFate(world, before, after, seen, n);
    }
  }

  /**
   * The account of a run: every event of an episode begun since the subscription is in exactly one
   * of the frames delivered or queued, or is lost for a cause that happened to it; and a reader from
   * whom nothing was lost reads all of it.
   */
  lemma StreamAccount(world: World, before: seq<Op>, after: seq<Op>, seen: Seen)
    returns (items: seq<Item>, lost: map<nat, Cause>)
    requires Sees(world, before, after, seen)
    ensures Events(items) == seen.delivered + seen.queued && Ordered(items) && forall x :: x in items ==> Made(seen.told, x)
    ensures DueIn(seen.told) == Sources(items) + lost.Keys && Sources(items) !! lost.Keys
    ensures forall n :: n in lost ==> Fate(seen, after, world.size, n, lost[n])
    ensures forall d, text :: Reads(Tape(items, seen.told, lost), d, text)
  {
    var w, stored := SeenWatch(world, before, after, seen);
    items, lost := w.tape.items, w.tape.lost;
    forall n | n in lost
      ensures Fate(seen, after, world.size, n, lost[n])
    {
      LostFate(world, before, after, seen, n);
    }
  }

  /** A structural frame of event `n`. */
  ghost predicate Frames(items: seq<Item>, told: seq<Event>, n: nat) {
    n < |told| && Item(told[n], [n]) in items
  }

  lemma FramedStructure(items: seq<Item>, told: seq<Event>, n: nat)
    requires (forall x :: x in items ==> Made(told, x)) && n in Sources(items) && n < |told| && told[n].Structural()
    ensures Frames(items, told, n)
  {
    var x :| x in items && n in x.sources;
    DeltaSources(told, x, n);
    assert x == Item(told[n], [n]);
  }

  /** Every structural event of a begun episode has its frame, unless the subscriber is overloaded or it was purged. */
  lemma StructureKept(world: World, before: seq<Op>, after: seq<Op>, seen: Seen) returns (items: seq<Item>)
    requires Sees(world, before, after, seen)
    ensures Events(items) == seen.delivered + seen.queued && Ordered(items)
    ensures forall n :: n in DueIn(seen.told) && n < |seen.told| && seen.told[n].Structural() ==>
                          || Frames(items, seen.told, n)
                          || (seen.last.subscribers[seen.id].overloaded && Swamped(seen, after, world.size))
                          || Purged(seen, after, world.size, n)
  {
    var lost;
    items, lost := StreamAccount(world, before, after, seen);
    forall n | n in DueIn(seen.told) && n < |seen.told| && seen.told[n].Structural()
      ensures || Frames(items, seen.told, n)
              || (seen.last.subscribers[seen.id].overloaded && Swamped(seen, after, world.size))
              || Purged(seen, after, world.size, n)
    {
      if n in lost {
        assert Fate(seen, after, world.size, n, lost[n]);
      } else {
        FramedStructure(items, seen.told, n);
      }
    }
  }

  // ----- drops -----

  /** Shares that only grow add up to at least as much as one of them grew. */
  lemma {:induction false} SharesGrow(was: map<nat, Subscriber>, now: map<nat, Subscriber>, n: nat, i: nat)
    requires forall j :: 0 <= j < n ==> Share(was, j) <= Share(now, j)
    ensures Shares(was, n) <= Shares(now, n)
    ensures i < n ==> Shares(was, n) + Share(now, i) <= Shares(now, n) + Share(was, i)
  {
    if n > 0 {
      SharesGrow(was, now, n - 1, i);
    }
  }

  /** A call raises the broker's counter by at least what it adds to a subscriber's share. */
  lemma StepDrops(b: Broker, i: nat, op: Op, size: Event -> nat)
    requires Numbered(b) && i in b.subscribers && op != Unsubscribe(i)
    ensures var next := Step(b, op, size);
            i in next.subscribers && Numbered(next)
            && DroppedDeltas(b) + next.subscribers[i].dropped <= DroppedDeltas(next) + b.subscribers[i].dropped
  {
    var next := Step(b, op, size);
    match op
    case Subscribe => SharesChange(b.subscribers, next.subscribers, b.nextId, b.nextId);
    case Receive(j) => SharesChange(b.subscribers, next.subscribers, b.nextId, j);
    case Unsubscribe(j) => SharesChange(b.subscribers, next.subscribers, b.nextId, j);
    case _ => HeardDrops(b, i, op, size);
  }

  lemma HeardDrops(b: Broker, i: nat, op: Op, size: Event -> nat)
    requires Numbered(b) && i in b.subscribers && !op.Subscribe? && !op.Receive? && !op.Unsubscribe?
    ensures var next := Step(b, op, size);
            i in next.subscribers && Numbered(next)
            && DroppedDeltas(b) + next.subscribers[i].dropped <= DroppedDeltas(next) + b.subscribers[i].dropped
  {
    var next, says := Step(b, op, size), Effects(b.core, op, size).says;
    EffectsWellFormed(b.core, op, size);
    forall j | j in b.subscribers
      ensures j in next.subscribers && b.subscribers[j].dropped <= next.subscribers[j].dropped
    {
      DropsGrow(b.subscribers[j], says, size);
    }
    SharesGrow(b.subscribers, next.subscribers, b.nextId, i);
  }

  lemma {:induction false} RunDrops(b: Broker, i: nat, ops: seq<Op>, size: Event -> nat)
    requires Numbered(b) && i in b.subscribers && Unsubscribe(i) !in ops
    ensures var last := Run(b, ops, size);
            i in last.subscribers && DroppedDeltas(b) + last.subscribers[i].dropped <= DroppedDeltas(last) + b.subscribers[i].dropped
    decreases |ops|
  {
    if ops != [] {
      StepDrops(b, i, ops[0], size);
      RunDrops(Step(b, ops[0], size), i, ops[1..], size);
    }
  }

  /** The drops counted for a subscriber raise the broker's counter, so while that stands still it has none. */
  lemma DropsCounted(world: World, before: seq<Op>, after: seq<Op>, seen: Seen)
    requires Sees(world, before, after, seen)
    ensures DroppedDeltas(seen.joined) + seen.last.subscribers[seen.id].dropped <= DroppedDeltas(seen.last)
  {
    RunIds(NEW, before, world.size);
    JoinWatches(Run(NEW, before, world.size), world.size);
    RunDrops(seen.joined, seen.id, after, world.size);
  }

  // ----- text -----

  /** No finalization of the work of `d` and no close finds an event of `d` in the subscriber's queue. */
  ghost predicate Unpurged(world: World, seen: Seen, after: seq<Op>, d: Draft) {
    forall n: nat, k: nat :: QueuedAt(seen, after, world.size, n, k) && seen.told[n].Of(d) ==>
                               after[k] !in {Finalize(world.owner(d).work), CloseAdmission}
  }

  /**
   * With no drop counted for it, no overload and no purge, the text of `d` delivered to the
   * subscriber and queued for it is the text offered in the episodes begun since it subscribed.
   */
  lemma TextKept(world: World, before: seq<Op>, after: seq<Op>, seen: Seen, d: Draft)
    requires Sees(world, before, after, seen) && Unpurged(world, seen, after, d)
    requires var s := seen.last.subscribers[seen.id]; !s.overloaded && s.dropped == 0
    ensures Reading(seen.delivered + seen.queued, d, true) == Reading(Owed(seen.told, d), d, true)
    ensures Letters(Reading(seen.delivered + seen.queued, d, true)) == OfferedText(world, seen.joined.core, after, d, false)
  {
    var items, lost := StreamAccount(world, before, after, seen);
    var w, stored := SeenWatch(world, before, after, seen);
    forall n | n in lost && n < |seen.told|
      ensures !Visible(seen.told[n], d, true)
    {
      assert Fate(seen, after, world.size, n, lost[n]);
      assert seen.told[n] in w.tape.log;
    }
    assert Reads(Tape(items, seen.told, lost), d, true);
    OffersBroadcast(world, before, after, d);
    StepCore(Run(NEW, before, world.size), Subscribe, world.size);
  }
}
