/** The live event broker as the object its callers lock: maps of drafts and subscribers updated in place. */
module LiveBroker {
  import opened Prelude
  import opened DraftEvents
  import opened DraftBroker
  import DraftLedger

  /** What `recv` answers: an event, a refusal, the end, or that it must wait to be notified. */
  datatype LiveEventReceive = Received(event: Event) | Overloaded | Closed | Waiting

  // ----- one queue -----

  /** The oldest delta in a queue. */
  method FindDelta(q: seq<Event>) returns (position: Option<nat>)
    ensures position == if FirstDelta(q) < |q| then Some(FirstDelta(q)) else None
  {
    var k := 0;
    while k < |q|
      invariant k <= |q| && FirstDelta(q) == k + FirstDelta(q[k..])
    {
      if q[k].payload.Delta? {
        return Some(k);
      }
      assert q[k..][1..] == q[k + 1..];
      k := k + 1;
    }
    return None;
  }

  method EnqueueStructural(s: Subscriber, e: Event) returns (after: Subscriber, queued: bool)
    requires |s.queue| <= OUTBOUND_FRAMES
    ensures var p := PlaceStructural(s.queue);
            queued == !p.Overload? && after == Placed(s, e, p, s.eligible)
    ensures |after.queue| <= OUTBOUND_FRAMES
  {
    after := s;
    while |after.queue| >= OUTBOUND_FRAMES
      invariant after == s || (|s.queue| == OUTBOUND_FRAMES && FirstDelta(s.queue) < |s.queue|
                               && after == s.(queue := s.queue[..FirstDelta(s.queue)] + s.queue[FirstDelta(s.queue) + 1..],
                                           dropped := s.dropped + 1))
      decreases |after.queue|
    {
      var position := FindDelta(after.queue);
      if position.None? {
        after := after.(overloaded := true);
        return after, false;
      }
      after := after.(queue := after.queue[..position.value] + after.queue[position.value + 1..],
      dropped := after.dropped + 1);
    }
    after := after.(queue := after.queue + [e]);
    queued := true;
  }

  method EnqueueDelta(s: Subscriber, e: Event, size: Event -> nat) returns (after: Subscriber)
    requires e.payload.Delta? && |s.queue| <= OUTBOUND_FRAMES
    ensures after == Placed(s, e, PlaceDelta(s.queue, e, size), s.eligible)
    ensures |after.queue| <= OUTBOUND_FRAMES
  {
    if |s.queue| < OUTBOUND_FRAMES {
      return s.(queue := s.queue + [e]);
    }
    var last := s.queue[|s.queue| - 1];
    if last.identity.draft == e.identity.draft && last.payload.Delta? && last.payload.kind == e.payload.kind {
      var candidate := Coalesce(last, e);
      if size(candidate) <= MAX_FRAME_BYTES {
        return s.(queue := s.queue[..|s.queue| - 1] + [candidate]);
      }
    }
    return s.(dropped := s.dropped + 1);
  }

  /** Announces an episode to one subscriber. */
  method Announce(s: Subscriber, e: Event, size: Event -> nat) returns (after: Subscriber)
    requires e.payload == Started && |s.queue| <= OUTBOUND_FRAMES
    ensures after == Hear(s, Begin(e), size) && |after.queue| <= OUTBOUND_FRAMES
  {
    var queued;
    after, queued := EnqueueStructural(s, e);
    if queued {
      after := after.(eligible := after.eligible[e.identity.draft := 0]);
    }
  }

  /** Tells one subscriber that an episode was abandoned, if it is eligible for it. */
  method Conclude(s: Subscriber, e: Event, size: Event -> nat) returns (after: Subscriber)
    requires e.payload.Abandoned? && |s.queue| <= OUTBOUND_FRAMES
    ensures after == Hear(s, End(e), size) && |after.queue| <= OUTBOUND_FRAMES
  {
    after := s;
    if e.identity.draft in s.eligible {
      after := after.(eligible := after.eligible - {e.identity.draft});
      var queued;
      after, queued := EnqueueStructural(after, e);
    }
  }

  method Advance(s: Subscriber, e: Event, size: Event -> nat) returns (after: Subscriber)
    requires e.payload.Delta? && |s.queue| <= OUTBOUND_FRAMES
    ensures after == Hear(s, Extend(e), size) && |after.queue| <= OUTBOUND_FRAMES
  {
    after := s;
    if e.identity.draft in s.eligible && e.payload.sequence > s.eligible[e.identity.draft] {
      after := after.(eligible := after.eligible[e.identity.draft := e.payload.sequence]);
      after := EnqueueDelta(after, e, size);
    }
  }

  /** Announces an episode if it is new, then ends it, for one subscriber. */
  method AnnounceAndConclude(s: Subscriber, started: Event, abandoned: Event, sendStarted: bool, size: Event -> nat)
    returns (after: Subscriber)
    requires started.payload == Started && abandoned.payload.Abandoned? && |s.queue| <= OUTBOUND_FRAMES
    ensures after == HearAll(s, if sendStarted then [Begin(started), End(abandoned)] else [End(abandoned)], size)
    ensures |after.queue| <= OUTBOUND_FRAMES
  {
    HearTwo(s, Begin(started), End(abandoned), size);
    HearTwo(s, End(abandoned), End(abandoned), size);
    after := s;
    if sendStarted {
      after := Announce(after, started, size);
    }
    after := Conclude(after, abandoned, size);
  }

  method AnnounceAndAdvance(s: Subscriber, started: Event, delta: Event, first: bool, size: Event -> nat)
    returns (after: Subscriber)
    requires started.payload == Started && delta.payload.Delta? && |s.queue| <= OUTBOUND_FRAMES
    ensures after == HearAll(s, if first then [Begin(started), Extend(delta)] else [Extend(delta)], size)
    ensures |after.queue| <= OUTBOUND_FRAMES
  {
    HearTwo(s, Begin(started), Extend(delta), size);
    HearTwo(s, Extend(delta), Extend(delta), size);
    after := s;
    if first {
      after := Announce(after, started, size);
    }
    after := Advance(after, delta, size);
  }

  method RetainOther(s: Subscriber, work: Work, draftIds: set<Draft>, size: Event -> nat) returns (after: Subscriber)
    requires |s.queue| <= OUTBOUND_FRAMES
    ensures after == HearAll(s, [Purge(work, draftIds)], size) && |after.queue| <= OUTBOUND_FRAMES
  {
    HearTwo(s, Purge(work, draftIds), Clear, size);
    RetainShrinks(s.queue, work);
    after := s.(queue := Retain(s.queue, work), eligible := s.eligible - draftIds);
  }

  method Empty(s: Subscriber, size: Event -> nat) returns (after: Subscriber)
    ensures after == HearAll(s, [Clear], size) && after.queue == []
  {
    HearTwo(s, Clear, Clear, size);
    after := s.(queue := [], eligible := map[]);
  }

  lemma {:induction false} RetainShrinks(q: seq<Event>, work: Work)
    ensures |Retain(q, work)| <= |q|
  {
    if q != [] {
      RetainShrinks(q[1..], work);
    }
  }

  ghost predicate AllBounded(subscribers: map<nat, Subscriber>) {
    forall i :: i in subscribers ==> |subscribers[i].queue| <= OUTBOUND_FRAMES
  }

  /** Numbered subscribers with bounded queues, and every dropped delta counted. */
  ghost predicate Counted(subscribers: map<nat, Subscriber>, nextId: nat, gone: nat, dropped: nat) {
    AllBounded(subscribers) && (forall i :: i in subscribers ==> i < nextId) && dropped == gone + Shares(subscribers, nextId)
  }

  /** What every subscriber becomes on hearing some broadcasts. */
  ghost function HeardBy(subscribers: map<nat, Subscriber>, says: seq<Broadcast>, size: Event -> nat)
    : map<nat, Subscriber>
    requires forall a :: a in says ==> WellFormed(a)
  {
    map i | i in subscribers :: HearAll(subscribers[i], says, size)
  }

  lemma {:induction false} HearAllConcat(s: Subscriber, x: seq<Broadcast>, y: seq<Broadcast>, size: Event -> nat)
    requires (forall a :: a in x ==> WellFormed(a)) && (forall a :: a in y ==> WellFormed(a))
    ensures HearAll(s, x + y, size) == HearAll(HearAll(s, x, size), y, size)
    decreases |x|
  {
    if x == [] {
      assert x + y == y;
    } else {
      assert (x + y)[1..] == x[1..] + y;
      HearAllConcat(Hear(s, x[0], size), x[1..], y, size);
    }
  }

  lemma HeardTwice(subscribers: map<nat, Subscriber>, x: seq<Broadcast>, y: seq<Broadcast>, size: Event -> nat)
    requires (forall a :: a in x ==> WellFormed(a)) && (forall a :: a in y ==> WellFormed(a))
    ensures HeardBy(HeardBy(subscribers, x, size), y, size) == HeardBy(subscribers, x + y, size)
  {
    forall i | i in subscribers
      ensures HearAll(HearAll(subscribers[i], x, size), y, size) == HearAll(subscribers[i], x + y, size)
    {
      HearAllConcat(subscribers[i], x, y, size);
    }
  }

  /** Drafts are held under their own invocations, one per work. */
  ghost predicate Keyed(drafts: map<nat, ActiveDraft>) {
    (forall i :: i in drafts ==> drafts[i].identity.invocation == i) && DraftLedger.OnePerWork(drafts)
  }

  lemma KeyedGrow(core: Core, draft: ActiveDraft)
    requires Keyed(core.drafts) && Rivals(core, draft.identity) == {}
    ensures Keyed(core.drafts[draft.identity.invocation := draft])
  {
    var after := core.drafts[draft.identity.invocation := draft];
    forall i, j | i in after && j in after && after[i].identity.work == after[j].identity.work
      ensures i == j
    {
      assert i !in Rivals(core, draft.identity) && j !in Rivals(core, draft.identity);
    }
  }

  // ----- the broker -----

  class LiveEventBroker {
    const size: Event -> nat
    var accepting: bool
    var closed: bool
    var nextSubscriberId: nat
    var drafts: map<nat, ActiveDraft>
    var subscribers: map<nat, Subscriber>
    var draftsStarted: nat
    var draftsAbandoned: nat
    var droppedDeltas: nat
    ghost var discarded: nat
    ghost var gone: nat

    ghost function View(): Broker
      reads this
    {
      Broker(Core(accepting, closed, drafts, draftsStarted, draftsAbandoned, discarded), nextSubscriberId, subscribers, gone)
    }

    ghost predicate Tallied()
      reads this
    {
      Counted(subscribers, nextSubscriberId, gone, droppedDeltas)
    }

    /** Drafts are also held under their own invocations, one per work. */
    ghost predicate Valid()
      reads this
    {
      Tallied() && Keyed(drafts)
    }

    constructor (size: Event -> nat)
      ensures Valid() && View() == NEW && this.size == size
    {
      this.size := size;
      accepting, closed, nextSubscriberId := true, false, 1;
      drafts, subscribers := map[], map[];
      draftsStarted, draftsAbandoned, droppedDeltas, discarded, gone := 0, 0, 0, 0, 0;
    }

    method Subscribe() returns (id: Option<nat>)
      requires Valid()
      modifies this
      ensures Valid() && View() == Step(old(View()), Op.Subscribe, size)
      ensures id == if old(accepting) then Some(old(nextSubscriberId)) else None
    {
      if !accepting {
        return None;
      }
      id := Some(nextSubscriberId);
      SharesChange(subscribers, subscribers[nextSubscriberId := FRESH], nextSubscriberId + 1, nextSubscriberId);
      nextSubscriberId := nextSubscriberId + 1;
      subscribers := subscribers[id.value := FRESH];
    }

    method RaiseClosed()
      requires Valid()
      modifies this
      ensures Valid() && View() == Step(old(View()), Op.RaiseClosed, size)
    {
      closed := true;
      assert HeardBy(subscribers, [], size) == subscribers;
    }

    /** One receive under the lock: overload is told first, then events in order, and the end only to an empty queue. */
    method Recv(id: nat) returns (r: LiveEventReceive)
      requires Valid()
      modifies this
      ensures Valid() && View() == Step(old(View()), Receive(id), size)
      ensures r.Received? <==> id in old(subscribers) && Deliverable(old(subscribers)[id])
      ensures r.Received? ==> r.event == old(subscribers)[id].queue[0]
      ensures r == Overloaded <==> id in old(subscribers) && old(subscribers)[id].overloaded
      ensures r == Waiting <==> accepting && id in old(subscribers) && !old(subscribers)[id].overloaded && old(subscribers)[id].queue == []
    {
      if id !in subscribers {
        return Closed;
      }
      var s := subscribers[id];
      assert Pop(s) == s ==> subscribers[id := s] == subscribers;
      if s.overloaded {
        return Overloaded;
      }
      if s.queue != [] {
        SharesChange(subscribers, subscribers[id := s.(queue := s.queue[1..])], nextSubscriberId, id);
        subscribers := subscribers[id := s.(queue := s.queue[1..])];
        return Received(s.queue[0]);
      }
      return if !accepting then Closed else Waiting;
    }

    method Drop(id: nat)
      requires Valid()
      modifies this
      ensures Valid() && View() == Step(old(View()), Unsubscribe(id), size)
    {
      if id in subscribers {
        SharesChange(subscribers, subscribers - {id}, nextSubscriberId, id);
        gone := gone + subscribers[id].dropped;
        subscribers := subscribers - {id};
      }
    }

    /** Where a loop over the subscribers stands: those in `todo` are as they were, the others have heard `says`. */
    ghost predicate Telling(was: map<nat, Subscriber>, todo: set<nat>, says: seq<Broadcast>)
      requires forall a :: a in says ==> WellFormed(a)
      reads this
    {
      && todo <= subscribers.Keys == was.Keys && Tallied()
      && forall i :: i in subscribers ==> subscribers[i] == if i in todo then was[i] else HearAll(was[i], says, size)
    }

    /** Puts back a subscriber that heard something, and counts what it dropped. */
    method Replace(i: nat, after: Subscriber)
      requires Tallied() && i in subscribers
      requires |after.queue| <= OUTBOUND_FRAMES && subscribers[i].dropped <= after.dropped
      modifies this`subscribers, this`droppedDeltas
      ensures Tallied() && subscribers == old(subscribers)[i := after]
    {
      SharesChange(subscribers, subscribers[i := after], nextSubscriberId, i);
      droppedDeltas := droppedDeltas + (after.dropped - subscribers[i].dropped);
      subscribers := subscribers[i := after];
    }

    method BroadcastAbandoned(identity: Identity, reason: Reason)
      requires Tallied()
      modifies this`subscribers, this`droppedDeltas
      ensures Tallied()
      ensures subscribers == HeardBy(old(subscribers), [End(Event(identity, Abandoned(reason)))], size)
    {
      var started, abandoned := Event(identity, Started), Event(identity, Abandoned(reason));
      var todo := subscribers.Keys;
      while todo != {}
        modifies this`subscribers, this`droppedDeltas
        invariant Telling(old(subscribers), todo, [End(abandoned)])
      {
        var i :| i in todo;
        var after := AnnounceAndConclude(subscribers[i], started, abandoned, false, size);
        DropsGrow(subscribers[i], [End(abandoned)], size);
        Replace(i, after);
        todo := todo - {i};
      }
    }

    /** An episode over its limits ends for everyone; `sendStarted` says it was never announced. */
    method BroadcastStartedAndAbandoned(identity: Identity, sendStarted: bool, reason: Reason)
      requires Tallied()
      modifies this`subscribers, this`droppedDeltas, this`draftsStarted, this`draftsAbandoned
      ensures Tallied()
      ensures draftsAbandoned == old(draftsAbandoned) + 1
      ensures draftsStarted == old(draftsStarted) + if sendStarted then 1 else 0
      ensures var end := End(Event(identity, Abandoned(reason)));
              subscribers == HeardBy(old(subscribers), if sendStarted then [Begin(Event(identity, Started)), end] else [end], size)
    {
      if sendStarted {
        draftsStarted := draftsStarted + 1;
      }
      draftsAbandoned := draftsAbandoned + 1;
      var started, abandoned := Event(identity, Started), Event(identity, Abandoned(reason));
      ghost var says := if sendStarted then [Begin(started), End(abandoned)] else [End(abandoned)];
      var todo := subscribers.Keys;
      while todo != {}
        modifies this`subscribers, this`droppedDeltas
        invariant Telling(old(subscribers), todo, says)
      {
        var i :| i in todo;
        var after := AnnounceAndConclude(subscribers[i], started, abandoned, sendStarted, size);
        DropsGrow(subscribers[i], says, size);
        Replace(i, after);
        todo := todo - {i};
      }
    }

    method BroadcastDelta(delta: Event, first: bool)
      requires Tallied() && delta.payload.Delta?
      modifies this`subscribers, this`droppedDeltas
      ensures Tallied()
      ensures subscribers ==
              HeardBy(old(subscribers), if first then [Begin(Event(delta.identity, Started)), Extend(delta)] else [Extend(delta)], size)
    {
      var started := Event(delta.identity, Started);
      ghost var says := if first then [Begin(started), Extend(delta)] else [Extend(delta)];
      var todo := subscribers.Keys;
      while todo != {}
        modifies this`subscribers, this`droppedDeltas
        invariant Telling(old(subscribers), todo, says)
      {
        var i :| i in todo;
        var after := AnnounceAndAdvance(subscribers[i], started, delta, first, size);
        DropsGrow(subscribers[i], says, size);
        Replace(i, after);
        todo := todo - {i};
      }
    }

    method BroadcastPurge(work: Work, draftIds: set<Draft>)
      requires Tallied()
      modifies this`subscribers, this`droppedDeltas
      ensures Tallied() && subscribers == HeardBy(old(subscribers), [Purge(work, draftIds)], size)
    {
      var todo := subscribers.Keys;
      while todo != {}
        modifies this`subscribers, this`droppedDeltas
        invariant Telling(old(subscribers), todo, [Purge(work, draftIds)])
      {
        var i :| i in todo;
        var after := RetainOther(subscribers[i], work, draftIds, size);
        DropsGrow(subscribers[i], [Purge(work, draftIds)], size);
        Replace(i, after);
        todo := todo - {i};
      }
    }

    method BroadcastClear()
      requires Tallied()
      modifies this`subscribers, this`droppedDeltas
      ensures Tallied() && subscribers == HeardBy(old(subscribers), [Clear], size)
    {
      var todo := subscribers.Keys;
      while todo != {}
        modifies this`subscribers, this`droppedDeltas
        invariant Telling(old(subscribers), todo, [Clear])
      {
        var i :| i in todo;
        var after := Empty(subscribers[i], size);
        DropsGrow(subscribers[i], [Clear], size);
        Replace(i, after);
        todo := todo - {i};
      }
    }

    /** The broker came to an effect: its drafts, and what every subscriber heard. */
    twostate predicate Reached(effect: Effect)
      reads this
    {
      && (forall a :: a in effect.says ==> WellFormed(a))
      && View() == Broker(effect.core, nextSubscriberId, HeardBy(old(subscribers), effect.says, size), gone)
    }

    /** Forgets a draft and, if it was announced, tells the subscribers. */
    method AbandonStored(invocation: nat, reason: Reason)
      requires Valid() && invocation in drafts
      modifies this`drafts, this`draftsAbandoned, this`subscribers, this`droppedDeltas
      ensures Valid() && Reached(AbandonDraft(old(View()).core, invocation, reason))
    {
      assert HeardBy(subscribers, [], size) == subscribers;
      var draft := drafts[invocation];
      drafts := drafts - {invocation};
      if draft.started {
        draftsAbandoned := draftsAbandoned + 1;
        BroadcastAbandoned(draft.identity, reason);
      }
    }

    method Abandon(invocation: nat, reason: Reason)
      requires Valid()
      modifies this
      ensures Valid() && View() == Step(old(View()), Op.Abandon(invocation, reason), size)
    {
      assert HeardBy(subscribers, [], size) == subscribers;
      if invocation in drafts {
        AbandonStored(invocation, reason);
      }
    }

    method FinalizeWork(work: Work)
      requires Valid()
      modifies this
      ensures Valid() && View() == Step(old(View()), Finalize(work), size)
    {
      var gone, draftIds := DraftsOf(drafts, work), DraftIdsOf(drafts, work);
      drafts := drafts - gone;
      discarded := discarded + |gone|;
      BroadcastPurge(work, draftIds);
    }

    method CloseAdmission()
      requires Valid()
      modifies this
      ensures Valid() && View() == Step(old(View()), Op.CloseAdmission, size)
    {
      accepting := false;
      discarded := discarded + |drafts|;
      drafts := map[];
      BroadcastClear();
    }

    /** Abandons every other draft of the work; there is at most one. */
    method SupersedeRivals(identity: Identity)
      requires Valid()
      modifies this`drafts, this`draftsAbandoned, this`subscribers, this`droppedDeltas
      ensures Valid() && Rivals(View().core, identity) == {} && Reached(Supersede(old(View()).core, identity))
    {
      var superseded := set i | i in drafts && drafts[i].identity.work == identity.work && i != identity.invocation;
      assert superseded == Rivals(View().core, identity);
      assert HeardBy(subscribers, [], size) == subscribers;
      while superseded != {}
        modifies this`drafts, this`draftsAbandoned, this`subscribers, this`droppedDeltas
        invariant Valid() && superseded == Rivals(View().core, identity)
        invariant View() == old(View()) || (superseded == {} && Reached(Supersede(old(View()).core, identity)))
        decreases |superseded|
      {
        var i :| i in superseded;
        assert forall j :: j in superseded ==> j == i;
        superseded := superseded - {i};
        AbandonStored(i, Superseded);
      }
    }

    /** Ends the episode of the draft just looked up at a delivery limit. */
    method GiveUpDraft(draft: ActiveDraft)
      requires Valid()
      modifies this`drafts, this`draftsStarted, this`draftsAbandoned, this`subscribers, this`droppedDeltas
      ensures Valid() && Reached(GiveUp(old(View()).core, draft))
    {
      BroadcastStartedAndAbandoned(draft.identity, !draft.started, DeliveryLimit);
      drafts := drafts - {draft.identity.invocation};
    }

    /** Stores the draft one delta longer and sends the delta, announcing the episode first if it is new. */
    method SendDelta(draft: ActiveDraft, delta: Event)
      requires Valid() && Rivals(View().core, draft.identity) == {}
      requires delta.payload.Delta? && delta == NextDelta(draft, delta.payload.kind, delta.payload.text)
      modifies this`drafts, this`draftsStarted, this`subscribers, this`droppedDeltas
      ensures Valid() && Reached(Grow(old(View()).core, draft, delta.payload.kind, delta.payload.text))
    {
      var text, identity := delta.payload.text, draft.identity;
      KeyedGrow(View().core, Grown(draft, text));
      drafts := drafts[identity.invocation :=
      ActiveDraft(identity, delta.payload.sequence, draft.textBytes + |text|, draft.deltaEvents + 1, true)];
      if !draft.started {
        draftsStarted := draftsStarted + 1;
      }
      BroadcastDelta(delta, !draft.started);
    }

    /** Numbers and sends a delta of the draft just looked up, or ends its episode at a delivery limit. */
    method GrowDraft(draft: ActiveDraft, kind: Kind, text: Bytes)
      requires Valid() && Rivals(View().core, draft.identity) == {}
      modifies this`drafts, this`draftsStarted, this`draftsAbandoned, this`subscribers, this`droppedDeltas
      ensures Valid()
      ensures var core := old(View()).core;
              Reached(if OverLimit(draft, kind, text, size) then GiveUp(core, draft) else Grow(core, draft, kind, text))
    {
      if draft.textBytes + |text| > MAX_DRAFT_TEXT_BYTES || draft.deltaEvents >= MAX_DRAFT_EVENTS {
        GiveUpDraft(draft);
        return;
      }
      var delta := Event(draft.identity, Delta(draft.nextSequence + 1, kind, text));
      if size(delta) > MAX_FRAME_BYTES {
        GiveUpDraft(draft);
        return;
      }
      SendDelta(draft, delta);
    }

    method Offer(identity: Identity, kind: Kind, text: Bytes) returns (exposed: bool)
      requires Valid()
      modifies this
      ensures Valid() && View() == Step(old(View()), Op.Offer(identity, kind, text), size)
      ensures exposed == (!old(closed) && old(accepting))
    {
      assert HeardBy(subscribers, [], size) == subscribers;
      if closed || !accepting {
        return false;
      }
      SupersedeRivals(identity);
      ghost var first := Supersede(old(View()).core, identity);
      var draft := if identity.invocation in drafts then drafts[identity.invocation] else Draft0(identity);
      if draft.identity != identity || draft.nextSequence == U32_MAX {
        return true;
      }
      ghost var second := if OverLimit(draft, kind, text, size) then GiveUp(first.core, draft) else Grow(first.core, draft, kind, text);
      HeardTwice(old(subscribers), first.says, second.says, size);
      GrowDraft(draft, kind, text);
      return true;
    }
  }
}
