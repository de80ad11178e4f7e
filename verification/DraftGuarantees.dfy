/** What the broker promises its subscribers, in terms of what they are delivered. */
module DraftGuarantees {
  import opened Prelude
  import opened DraftEvents
  import opened DraftReadings
  import opened DraftBroker
  import opened DraftLedger
  import opened DraftQueues
  import opened DraftStreams
  import opened DraftFidelity
  import opened DraftAccounts
  import opened DraftTheorems
  import opened DraftRuns

  /** A subscriber that joins after `before` and sees `after`: the broker, its id, and what it has been given. */
  datatype Seen = Seen(joined: Broker, id: nat, last: Broker, delivered: seq<Event>, queued: seq<Event>, told: seq<Event>)

  ghost predicate Sees(world: World, before: seq<Op>, after: seq<Op>, seen: Seen) {
    var b := Run(NEW, before, world.size);
    && AllProper(world, before) && AllProper(world, after)
    && b.core.accepting && Unsubscribe(b.nextId) !in after
    && seen.joined == Step(b, Subscribe, world.size) && seen.id == b.nextId
    && seen.last == Run(seen.joined, after, world.size)
    && seen.delivered == Delivered(seen.joined, after, seen.id, world.size)
    && seen.id in seen.last.subscribers && seen.queued == seen.last.subscribers[seen.id].queue
    && seen.told == Told(b.core, after, world.size)
  }

  /** The watch behind what a subscriber sees: every guarantee is read off it. */
  lemma SeenWatch(world: World, before: seq<Op>, after: seq<Op>, seen: Seen) returns (w: Watched, stored: Stored)
    requires Sees(world, before, after, seen)
    ensures w == Subscription(before, after, world.size)
    ensures Tracks(world, stored, seen.last.core.drafts) && Faithful(world, stored, w)
    ensures seen.last.subscribers[seen.id] == SubscriberOf(w)
    ensures Events(w.tape.items) == seen.delivered + seen.queued && w.tape.log == seen.told
    ensures Delivery(w) == seen.delivered
  {
    w := Subscription(before, after, world.size);
    SubscriberWatched(before, after, world.size);
    CameStream(seen.last, seen.id, w, seen.delivered, seen.told);
    stored := SubscriptionFaithful(world, before, after);
    LastCore(before, after, world.size);
  }

  lemma LastCore(before: seq<Op>, after: seq<Op>, size: Event -> nat)
    ensures var b := Run(NEW, before, size);
            Run(Step(b, Subscribe, size), after, size).core == CoreAfter(b.core, after, size)
  {
    RunCore(Step(Run(NEW, before, size), Subscribe, size), after, size);
    StepCore(Run(NEW, before, size), Subscribe, size);
  }

  lemma CameStream(now: Broker, i: nat, w: Watched, got: seq<Event>, told: seq<Event>)
    requires Came(UNHEARD, now, i, w, got, told)
    ensures Events(w.tape.items) == got + now.subscribers[i].queue && w.tape.log == told && Delivery(w) == got
  {
    assert Delivery(UNHEARD) == [];
    EventsTake(w.tape.items, w.delivered);
    assert Events(w.tape.items) == Events(w.tape.items)[..w.delivered] + Events(w.tape.items)[w.delivered..];
  }

  /**
   * Whatever the broker and the subscribers do, the delivered and queued events of every draft are
   * episodes with increasing sequences, the queue is bounded, and only the drafts the broker still
   * holds are open to the subscriber.
   */
  lemma StreamEpisodes(world: World, before: seq<Op>, after: seq<Op>, seen: Seen, d: Draft)
    requires Sees(world, before, after, seen)
    ensures Scan(Shut, seen.delivered + seen.queued, d) != Bad
    ensures |seen.queued| <= OUTBOUND_FRAMES
    ensures d in seen.last.subscribers[seen.id].eligible ==> Holds(world, seen.last.core.drafts, d)
  {
    var w, stored := SeenWatch(world, before, after, seen);
    assert Stands(Left(w, d), SubscriberOf(w), d);
    ScanConcat(Shut, Delivery(w), Queue(w), d);
    EventsTake(w.tape.items, w.delivered);
  }

  /**
   * Every frame is one broadcast structural event, or the concatenation of broadcast deltas of one
   * draft and kind in order; frames use disjoint ordered ranges, fit the frame limit, and stem only
   * from episodes that began after the subscription.
   */
  lemma StreamProvenance(world: World, before: seq<Op>, after: seq<Op>, seen: Seen) returns (items: seq<Item>)
    requires Sees(world, before, after, seen)
    ensures Events(items) == seen.delivered + seen.queued && Ordered(items) && Sources(items) <= DueIn(seen.told)
    ensures forall x :: x in items ==> Made(seen.told, x) && (x.event.payload.Delta? ==> world.size(x.event) <= MAX_FRAME_BYTES)
  {
    var w, stored := SeenWatch(world, before, after, seen);
    items := w.tape.items;
    forall x | x in items
      ensures Made(seen.told, x) && (x.event.payload.Delta? ==> world.size(x.event) <= MAX_FRAME_BYTES)
    {
      assert Sized(world, x);
    }
  }

  /** Over any run: one draft per work, all started, within limits, and every start accounted for. */
  lemma LedgerKept(world: World, ops: seq<Op>)
    requires AllProper(world, ops)
    ensures Kept(world, Run(NEW, ops, world.size).core)
  {
    var stored := StartKept(world, ops);
  }

  /** Superseding a rival leaves the offered draft as it is. */
  lemma OwnDraftStays(core: Core, identity: Identity)
    ensures var first := Supersede(core, identity).core;
            && (identity.invocation in first.drafts <==> identity.invocation in core.drafts)
            && (identity.invocation in core.drafts ==> first.drafts[identity.invocation] == core.drafts[identity.invocation])
  {
  }

  /** An accepted offer within the limits is told verbatim, under the next number of its draft. */
  lemma OfferTold(world: World, core: Core, identity: Identity, kind: Kind, text: Bytes, draft: ActiveDraft)
    requires Kept(world, core) && core.accepting && !core.closed && identity == draft.identity
    requires draft == if identity.invocation in core.drafts then core.drafts[identity.invocation] else Draft0(identity)
    requires draft.textBytes + |text| <= 262_144 && draft.deltaEvents < 4_096
    requires world.size(Event(identity, Delta(draft.nextSequence + 1, kind, text))) <= 270_336
    ensures var says := Effects(core, Offer(identity, kind, text), world.size).says;
            says != [] && says[|says| - 1] == Extend(Event(identity, Delta(draft.nextSequence + 1, kind, text)))
  {
    OwnDraftStays(core, identity);
    assert NextDelta(draft, kind, text) == Event(identity, Delta(draft.nextSequence + 1, kind, text));
    assert !OverLimit(draft, kind, text, world.size);
    if identity.invocation in core.drafts {
      assert Sound(world, identity.invocation, draft);
    }
  }
}
