/** Whole runs of the broker, as one of its subscribers sees them. */
module DraftRuns {
  import opened Prelude
  import opened DraftEvents
  import opened DraftBroker
  import opened DraftLedger
  import opened DraftStreams
  import opened DraftTheorems

  // ----- runs -----

  ghost function Run(b: Broker, ops: seq<Op>, size: Event -> nat): Broker
    decreases |ops|
  {
    if ops == [] then b else Run(Step(b, ops[0], size), ops[1..], size)
  }

  /** What a call delivers to subscriber `i`. */
  function Received(b: Broker, op: Op, i: nat): seq<Event> {
    if op == Receive(i) && i in b.subscribers && Deliverable(b.subscribers[i]) then [b.subscribers[i].queue[0]] else []
  }

  ghost function Delivered(b: Broker, ops: seq<Op>, i: nat, size: Event -> nat): seq<Event>
    decreases |ops|
  {
    if ops == [] then [] else Received(b, ops[0], i) + Delivered(Step(b, ops[0], size), ops[1..], i, size)
  }

  /** The events broadcast in a run. */
  ghost function Told(core: Core, ops: seq<Op>, size: Event -> nat): seq<Event>
    decreases |ops|
  {
    if ops == [] then []
    else
      var effect := Effects(core, ops[0], size);
      Spoken(effect.says) + Told(effect.core, ops[1..], size)
  }

  ghost predicate AllProper(world: World, ops: seq<Op>) {
    forall op :: op in ops ==> Proper(world, op)
  }

  lemma {:induction false} RunLast(b: Broker, ops: seq<Op>, op: Op, i: nat, size: Event -> nat)
    ensures Run(b, ops + [op], size) == Step(Run(b, ops, size), op, size)
    ensures Delivered(b, ops + [op], i, size) == Delivered(b, ops, i, size) + Received(Run(b, ops, size), op, i)
    decreases |ops|
  {
    if ops == [] {
      assert ops + [op] == [op] && [op][1..] == [];
    } else {
      assert (ops + [op])[0] == ops[0] && (ops + [op])[1..] == ops[1..] + [op];
      RunLast(Step(b, ops[0], size), ops[1..], op, i, size);
      Associates(Received(b, ops[0], i), Delivered(Step(b, ops[0], size), ops[1..], i, size),
                 Received(Run(b, ops, size), op, i));
    }
  }

  // ----- one subscriber of a run -----

  ghost function Watch(w: Watched, core: Core, op: Op, i: nat, size: Event -> nat): (next: Watched)
    requires w.delivered <= |w.tape.items|
    ensures next.delivered <= |next.tape.items|
  {
    EffectsWellFormed(core, op, size);
    if op == Receive(i) then Take(w) else ListenAll(w, Effects(core, op, size).says, size)
  }

  /** Subscriber `i` of `b` is `w` without its history. */
  ghost predicate Watches(b: Broker, i: nat, w: Watched) {
    && Numbered(b)
    && i in b.subscribers && w.delivered <= |w.tape.items| && b.subscribers[i] == SubscriberOf(w)
  }

  lemma ReceiveWatched(b: Broker, i: nat, w: Watched, size: Event -> nat)
    requires Watches(b, i, w)
    ensures Watches(Step(b, Receive(i), size), i, Take(w))
    ensures Delivery(Take(w)) == Delivery(w) + Received(b, Receive(i), i)
  {
  }

  lemma StepCore(b: Broker, op: Op, size: Event -> nat)
    ensures Step(b, op, size).core == Effects(b.core, op, size).core
  {
  }

  lemma StepSilent(core: Core, op: Op, size: Event -> nat)
    requires op.Subscribe? || op.Receive? || op.Unsubscribe?
    ensures Effects(core, op, size).says == []
  {
  }

  /** Only a finalization and a close take events out of queues, and they broadcast nothing else. */
  lemma SaysPurge(core: Core, op: Op, size: Event -> nat)
    ensures var says := Effects(core, op, size).says;
            || (forall a :: a in says ==> !a.Purge? && !a.Clear?)
            || (|says| == 1 && ((says[0].Purge? && op == Finalize(says[0].work)) || (says[0].Clear? && op == CloseAdmission)))
  {
  }

  /** Calls other than its own receives reach a subscriber only through what they broadcast. */
  lemma StepHeard(b: Broker, i: nat, op: Op, size: Event -> nat)
    requires i in b.subscribers && Numbered(b)
    requires op != Unsubscribe(i) && op != Receive(i)
    ensures forall a :: a in Effects(b.core, op, size).says ==> WellFormed(a)
    ensures var next := Step(b, op, size);
            && i in next.subscribers
            && next.subscribers[i] == HearAll(b.subscribers[i], Effects(b.core, op, size).says, size)
            && Numbered(next)
  {
    EffectsWellFormed(b.core, op, size);
  }

  /** From `w`, subscriber `i` of what is now `b` came to `next`, was delivered `got` and was told `told`. */
  ghost predicate Came(w: Watched, b: Broker, i: nat, next: Watched, got: seq<Event>, told: seq<Event>) {
    && w.delivered <= |w.tape.items|
    && Watches(b, i, next)
    && Delivery(next) == Delivery(w) + got
    && next.tape.log == w.tape.log + told
  }

  lemma CameTwice(w: Watched, b: Broker, c: Broker, i: nat, m: Watched, next: Watched,
                  x: seq<Event>, y: seq<Event>, s: seq<Event>, t: seq<Event>)
    requires Came(w, b, i, m, x, s) && Came(m, c, i, next, y, t)
    ensures Came(w, c, i, next, x + y, s + t)
  {
  }

  lemma StepWatched(b: Broker, i: nat, w: Watched, op: Op, size: Event -> nat)
    requires Watches(b, i, w) && op != Unsubscribe(i)
    ensures Came(w, Step(b, op, size), i, Watch(w, b.core, op, i, size), Received(b, op, i),
                 Spoken(Effects(b.core, op, size).says))
  {
    if op == Receive(i) {
      ReceiveWatched(b, i, w, size);
    } else {
      StepHeard(b, i, op, size);
      ListenAllErases(w, Effects(b.core, op, size).says, size);
    }
  }

  ghost function WatchAll(w: Watched, core: Core, ops: seq<Op>, i: nat, size: Event -> nat): (last: Watched)
    requires w.delivered <= |w.tape.items|
    ensures last.delivered <= |last.tape.items|
    decreases |ops|
  {
    if ops == [] then w else WatchAll(Watch(w, core, ops[0], i, size), Effects(core, ops[0], size).core, ops[1..], i, size)
  }

  lemma {:induction false} RunWatched(b: Broker, i: nat, w: Watched, ops: seq<Op>, size: Event -> nat)
    requires Watches(b, i, w) && Unsubscribe(i) !in ops
    ensures Came(w, Run(b, ops, size), i, WatchAll(w, b.core, ops, i, size), Delivered(b, ops, i, size),
                 Told(b.core, ops, size))
    decreases |ops|
  {
    if ops != [] {
      var c, m, rest := Step(b, ops[0], size), Watch(w, b.core, ops[0], i, size), ops[1..];
      StepWatched(b, i, w, ops[0], size);
      StepCore(b, ops[0], size);
      RunWatched(c, i, m, rest, size);
      CameTwice(w, c, Run(c, rest, size), i, m, WatchAll(m, c.core, rest, i, size),
                Received(b, ops[0], i), Delivered(c, rest, i, size),
                Spoken(Effects(b.core, ops[0], size).says), Told(c.core, rest, size));
    }
  }

  lemma {:induction false} WatchLast(w: Watched, core: Core, ops: seq<Op>, op: Op, i: nat, size: Event -> nat)
    requires w.delivered <= |w.tape.items|
    ensures WatchAll(w, core, ops + [op], i, size) ==
            Watch(WatchAll(w, core, ops, i, size), CoreAfter(core, ops, size), op, i, size)
    decreases |ops|
  {
    if ops == [] {
      assert ops + [op] == [op] && [op][1..] == [];
    } else {
      assert (ops + [op])[1..] == ops[1..] + [op];
      WatchLast(Watch(w, core, ops[0], i, size), Effects(core, ops[0], size).core, ops[1..], op, i, size);
    }
  }

  lemma {:induction false} ToldConcat(core: Core, x: seq<Op>, y: seq<Op>, size: Event -> nat)
    ensures Told(core, x + y, size) == Told(core, x, size) + Told(CoreAfter(core, x, size), y, size)
    decreases |x|
  {
    if x == [] {
      assert x + y == y;
    } else {
      assert (x + y)[0] == x[0] && (x + y)[1..] == x[1..] + y;
      ToldConcat(Effects(core, x[0], size).core, x[1..], y, size);
    }
  }

  // ----- every run is faithful -----

  ghost function StoredAfter(stored: Stored, core: Core, ops: seq<Op>, size: Event -> nat): Stored
    decreases |ops|
  {
    if ops == [] then stored
    else
      var effect := Effects(core, ops[0], size);
      StoredAfter(AfterAll(stored, effect.says), effect.core, ops[1..], size)
  }

  ghost function CoreAfter(core: Core, ops: seq<Op>, size: Event -> nat): Core
    decreases |ops|
  {
    if ops == [] then core else CoreAfter(Effects(core, ops[0], size).core, ops[1..], size)
  }

  lemma {:induction false} RunCore(b: Broker, ops: seq<Op>, size: Event -> nat)
    ensures Run(b, ops, size).core == CoreAfter(b.core, ops, size)
    decreases |ops|
  {
    if ops != [] {
      StepCore(b, ops[0], size);
      RunCore(Step(b, ops[0], size), ops[1..], size);
    }
  }

  /**
   * The broker's ledger over any run: one draft per work, all started and within limits, numbered
   * by their deltas, and every start is an abandonment, a stored draft or a discarded one.
   */
  lemma {:induction false} RunKept(world: World, stored: Stored, core: Core, ops: seq<Op>)
    requires Kept(world, core) && Tracks(world, stored, core.drafts) && AllProper(world, ops)
    ensures Kept(world, CoreAfter(core, ops, world.size))
    ensures Tracks(world, StoredAfter(stored, core, ops, world.size), CoreAfter(core, ops, world.size).drafts)
    decreases |ops|
  {
    if ops != [] {
      EffectsGood(world, stored, core, ops[0]);
      var effect := Effects(core, ops[0], world.size);
      RunKept(world, AfterAll(stored, effect.says), effect.core, ops[1..]);
    }
  }

  /** What a broker that has run from the start keeps. */
  lemma StartKept(world: World, before: seq<Op>) returns (stored: Stored)
    requires AllProper(world, before)
    ensures Kept(world, Run(NEW, before, world.size).core)
    ensures Tracks(world, stored, Run(NEW, before, world.size).core.drafts)
  {
    stored := StoredAfter(map[], NEW.core, before, world.size);
    RunCore(NEW, before, world.size);
    RunKept(world, map[], NEW.core, before);
  }

  lemma WatchFaithful(world: World, stored: Stored, core: Core, w: Watched, op: Op, i: nat)
    requires Kept(world, core) && Tracks(world, stored, core.drafts) && Proper(world, op) && Faithful(world, stored, w)
    ensures Faithful(world, AfterAll(stored, Effects(core, op, world.size).says), Watch(w, core, op, i, world.size))
  {
    if op == Receive(i) {
      StepSilent(core, op, world.size);
      TakeFaithful(world, stored, w);
    } else {
      EffectsGood(world, stored, core, op);
      ListenAllFaithful(world, stored, w, Effects(core, op, world.size).says);
    }
  }

  lemma {:induction false} RunFaithful(world: World, stored: Stored, core: Core, w: Watched, ops: seq<Op>, i: nat)
    requires Kept(world, core) && Tracks(world, stored, core.drafts) && AllProper(world, ops)
             && Faithful(world, stored, w)
    ensures Faithful(world, StoredAfter(stored, core, ops, world.size), WatchAll(w, core, ops, i, world.size))
    decreases |ops|
  {
    if ops != [] {
      var effect := Effects(core, ops[0], world.size);
      EffectsGood(world, stored, core, ops[0]);
      WatchFaithful(world, stored, core, w, ops[0], i);
      RunFaithful(world, AfterAll(stored, effect.says), effect.core, Watch(w, core, ops[0], i, world.size),
                  ops[1..], i);
    }
  }

  lemma FreshFaithful(world: World, stored: Stored)
    ensures Faithful(world, stored, UNHEARD)
  {
  }

  /** A subscriber's watch from its subscription on: `before` runs first, then it subscribes, then `after` runs. */
  ghost function Subscription(before: seq<Op>, after: seq<Op>, size: Event -> nat): Watched {
    var b := Run(NEW, before, size);
    WatchAll(UNHEARD, b.core, after, b.nextId, size)
  }

  /** One more call is one more step of the watch. */
  lemma SubscriptionNext(before: seq<Op>, after: seq<Op>, k: nat, size: Event -> nat) returns (core: Core)
    requires k < |after|
    ensures Subscription(before, after[..k + 1], size) ==
            Watch(Subscription(before, after[..k], size), core, after[k], Run(NEW, before, size).nextId, size)
  {
    var b := Run(NEW, before, size);
    core := CoreAfter(b.core, after[..k], size);
    assert after[..k + 1] == after[..k] + [after[k]];
    WatchLast(UNHEARD, b.core, after[..k], after[k], b.nextId, size);
  }

  lemma {:induction false} RunIds(b: Broker, ops: seq<Op>, size: Event -> nat)
    requires Numbered(b)
    ensures Numbered(Run(b, ops, size))
    decreases |ops|
  {
    if ops != [] {
      RunIds(Step(b, ops[0], size), ops[1..], size);
    }
  }

  lemma JoinWatches(b: Broker, size: Event -> nat)
    requires b.core.accepting && Numbered(b)
    ensures Watches(Step(b, Subscribe, size), b.nextId, UNHEARD) && Step(b, Subscribe, size).core == b.core
  {
  }

  lemma SubscriberWatched(before: seq<Op>, after: seq<Op>, size: Event -> nat)
    requires Run(NEW, before, size).core.accepting && Unsubscribe(Run(NEW, before, size).nextId) !in after
    ensures var b := Run(NEW, before, size);
            var joined := Step(b, Subscribe, size);
            Came(UNHEARD, Run(joined, after, size), b.nextId, Subscription(before, after, size),
                 Delivered(joined, after, b.nextId, size), Told(b.core, after, size))
  {
    var b := Run(NEW, before, size);
    RunIds(NEW, before, size);
    JoinWatches(b, size);
    RunWatched(Step(b, Subscribe, size), b.nextId, UNHEARD, after, size);
  }

  lemma SubscriptionFaithful(world: World, before: seq<Op>, after: seq<Op>) returns (stored: Stored)
    requires AllProper(world, before) && AllProper(world, after)
    ensures Faithful(world, stored, Subscription(before, after, world.size))
    ensures Tracks(world, stored, CoreAfter(Run(NEW, before, world.size).core, after, world.size).drafts)
  {
    var b := Run(NEW, before, world.size);
    var first := StartKept(world, before);
    RunKept(world, first, b.core, after);
    FreshFaithful(world, first);
    RunFaithful(world, first, b.core, UNHEARD, after, b.nextId);
    stored := StoredAfter(first, b.core, after, world.size);
  }
}
