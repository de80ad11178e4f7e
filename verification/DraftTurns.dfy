/**
 * Whole runs of the broker and one connection: the connection receives drafts, sends durable frames
 * and finalizes their works in the broker, while anyone else calls the broker as they like.
 */
module DraftTurns {
  import opened Prelude
  import opened DraftEvents
  import opened DraftReadings
  import opened DraftBroker
  import opened DraftLedger
  import opened DraftQueues
  import opened DraftFilter
  import opened DraftRuns
  import opened DraftGuarantees
  import opened DraftPassage

  // ----- turns -----

  /** A call on the broker, the connection's own receives among them, or a durable frame the connection sends. */
  datatype Turn = Call(op: Op) | Sends(event: DurableEvent)

  /** The broker, and what the connection's filter was fed. */
  datatype Passage = Passage(broker: Broker, fed: seq<Frame>)

  function Lives(events: seq<Event>): seq<Frame> {
    seq(|events|, i requires 0 <= i < |events| => Live(events[i]))
  }

  /** The call a turn makes: the connection finalizes a work before it sends the last word on it. */
  function CallOf(t: Turn): Option<Op> {
    match t
    case Call(op) => Some(op)
    case Sends(e) => if e.Finalizes().Some? then Some(Finalize(e.Finalizes().value)) else None
  }

  ghost function Turned(p: Passage, t: Turn, i: nat, size: Event -> nat): Passage {
    Passage(if CallOf(t).Some? then Step(p.broker, CallOf(t).value, size) else p.broker,
            p.fed + if t.Call? then Lives(Received(p.broker, t.op, i)) else [Durable(t.event)])
  }

  ghost function TurnAll(p: Passage, turns: seq<Turn>, i: nat, size: Event -> nat): Passage {
    if turns == [] then p else Turned(TurnAll(p, turns[..|turns| - 1], i, size), turns[|turns| - 1], i, size)
  }

  ghost predicate ProperTurns(world: World, turns: seq<Turn>, i: nat) {
    forall t :: t in turns && t.Call? ==> Proper(world, t.op) && t.op != Unsubscribe(i)
  }

  // ----- a subscriber and its filter -----

  ghost predicate Queued(world: World, stored: Stored, s: Subscriber) {
    QueueOwned(world, s.queue) && forall d :: d in s.eligible ==> d in stored
  }

  lemma HearQueued(world: World, stored: Stored, s: Subscriber, a: Broadcast)
    requires Queued(world, stored, s) && Allowed(world, stored, a)
    ensures WellFormed(a) && Queued(world, After(stored, a), Hear(s, a, world.size))
  {
    if a.Purge? {
      RetainPart(s.queue, a.work);
    }
  }

  lemma {:induction false} HearAllStands(world: World, stored: Stored, x: Standing, s: Subscriber,
                                         says: seq<Broadcast>, d: Draft)
    requires Queued(world, stored, s) && Disciplined(world, stored, says) && Stands(x, s, d)
    ensures forall a :: a in says ==> WellFormed(a)
    ensures var next := HearAll(s, says, world.size); Queued(world, AfterAll(stored, says), next) && Stands(x, next, d)
    decreases |says|
  {
    if says != [] {
      HearQueued(world, stored, s, says[0]);
      HearStands(world, stored, x, s, says[0], d);
      HearAllStands(world, After(stored, says[0]), x, Hear(s, says[0], world.size), says[1..], d);
    }
  }

  /** What holds of the broker and the connection's subscription at every turn. */
  ghost predicate Running(world: World, stored: Stored, b: Broker, i: nat) {
    && Kept(world, b.core) && Tracks(world, stored, b.core.drafts) && Numbered(b)
    && i in b.subscribers && Queued(world, stored, b.subscribers[i])
  }

  ghost function StoredNext(stored: Stored, core: Core, op: Op, size: Event -> nat): Stored {
    AfterAll(stored, Effects(core, op, size).says)
  }

  /** A call other than the subscriber's own receive. */
  lemma CallStands(world: World, stored: Stored, b: Broker, i: nat, op: Op, x: Standing, d: Draft)
    requires Running(world, stored, b, i) && Proper(world, op) && op != Unsubscribe(i) && op != Receive(i)
    requires Stands(x, b.subscribers[i], d)
    ensures var next := Step(b, op, world.size);
            Running(world, StoredNext(stored, b.core, op, world.size), next, i) && Stands(x, next.subscribers[i], d)
  {
    EffectsGood(world, stored, b.core, op);
    StepHeard(b, i, op, world.size);
    StepCore(b, op, world.size);
    HearAllStands(world, stored, x, b.subscribers[i], Effects(b.core, op, world.size).says, d);
  }

  lemma ReceiveStands(world: World, stored: Stored, b: Broker, i: nat, x: Standing, d: Draft, strict: bool := false)
    requires Running(world, stored, b, i)
    ensures var next, got := Step(b, Receive(i), world.size), Received(b, Receive(i), i);
            && Running(world, stored, next, i) && |got| <= 1 && (got != [] ==> Owned(world, got[0]))
            && (Stands(x, b.subscribers[i], d, strict) ==> Stands(Scan(x, got, d, strict), next.subscribers[i], d, strict))
  {
    StepSilent(b.core, Receive(i), world.size);
    var s := b.subscribers[i];
    if Deliverable(s) {
      assert s.queue[0] in s.queue && Received(b, Receive(i), i)[1..] == [];
    }
  }

  // ----- every turn is well formed -----

  ghost predicate Unbroken(world: World, p: Passage, i: nat, d: Draft)
    requires i in p.broker.subscribers
  {
    Stands(ScanFrames(p.fed, d, world.owner(d).work), p.broker.subscribers[i], d)
  }

  lemma FedLives(fed: seq<Frame>, got: seq<Event>, d: Draft, work: Work, strict: bool := false)
    requires |got| <= 1
    ensures ScanFrames(fed + Lives(got), d, work, strict) == Scan(ScanFrames(fed, d, work, strict), got, d, strict)
  {
    if got == [] {
      assert fed + Lives(got) == fed;
    } else {
      assert fed + Lives(got) == fed + [Live(got[0])] && got[1..] == [];
      ScanFramesNext(fed, Live(got[0]), d, work, strict);
      assert Scan(Next(ScanFrames(fed, d, work, strict), got[0], d, strict), [], d, strict) ==
             Next(ScanFrames(fed, d, work, strict), got[0], d, strict);
    }
  }

  /** The last word on the work of `d` leaves the connection nothing of `d`. */
  lemma FinalStands(world: World, stored: Stored, b: Broker, i: nat, work: Work, d: Draft, strict: bool := false)
    requires Running(world, stored, b, i) && OfWork(world, d, work)
    ensures var next := Step(b, Finalize(work), world.size);
            && i in next.subscribers && d !in next.subscribers[i].eligible
            && d !in StoredNext(stored, b.core, Finalize(work), world.size)
            && (forall e :: e in next.subscribers[i].queue ==> !e.Of(d))
            && forall x :: Scan(x, next.subscribers[i].queue, d, strict) == x
  {
    var s, ids := b.subscribers[i], DraftIdsOf(b.core.drafts, work);
    HearTwo(s, Purge(work, ids), Clear, world.size);
    EffectsGood(world, stored, b.core, Finalize(work));
    assert Allowed(world, stored, Purge(work, ids));
    Says1(world, stored, Purge(work, ids));
    RetainPart(s.queue, work);
    forall x
      ensures Scan(x, Retain(s.queue, work), d, strict) == x
    {
      PurgeScans(world, x, s.queue, work, d, strict);
    }
  }

  ghost function StoredTurn(stored: Stored, core: Core, t: Turn, size: Event -> nat): Stored {
    if CallOf(t).Some? then StoredNext(stored, core, CallOf(t).value, size) else stored
  }

  lemma CallTurn(world: World, stored: Stored, p: Passage, op: Op, i: nat, d: Draft)
    requires Running(world, stored, p.broker, i) && Unbroken(world, p, i, d) && AllOwned(world, p.fed)
    requires Proper(world, op) && op != Unsubscribe(i)
    ensures var next := Turned(p, Call(op), i, world.size);
            && Running(world, StoredTurn(stored, p.broker.core, Call(op), world.size), next.broker, i)
            && Unbroken(world, next, i, d) && AllOwned(world, next.fed)
  {
    var x, work := ScanFrames(p.fed, d, world.owner(d).work), world.owner(d).work;
    if op == Receive(i) {
      ReceiveStands(world, stored, p.broker, i, x, d);
      StepSilent(p.broker.core, op, world.size);
      FedLives(p.fed, Received(p.broker, op, i), d, work);
    } else {
      CallStands(world, stored, p.broker, i, op, x, d);
      FedLives(p.fed, [], d, work);
    }
  }

  lemma SendTurn(world: World, stored: Stored, p: Passage, e: DurableEvent, i: nat, d: Draft)
    requires Running(world, stored, p.broker, i) && Unbroken(world, p, i, d) && AllOwned(world, p.fed)
    ensures var next := Turned(p, Sends(e), i, world.size);
            && Running(world, StoredTurn(stored, p.broker.core, Sends(e), world.size), next.broker, i)
            && Unbroken(world, next, i, d) && AllOwned(world, next.fed)
  {
    var work := world.owner(d).work;
    var x := ScanFrames(p.fed, d, work);
    ScanFrom(x, p.broker.subscribers[i].queue, d);
    ScanFramesNext(p.fed, Durable(e), d, work);
    if e.Finalizes().Some? {
      CallStands(world, stored, p.broker, i, Finalize(e.Finalizes().value), x, d);
      if e.Finalizes() == Some(work) {
        FinalStands(world, stored, p.broker, i, work, d);
      }
    }
  }

  /** Where a connection starts: it has subscribed to a broker that has run before. */
  ghost predicate Joins(world: World, before: seq<Op>, joined: Broker, i: nat) {
    var b := Run(NEW, before, world.size);
    AllProper(world, before) && b.core.accepting && joined == Step(b, Subscribe, world.size) && i == b.nextId
  }

  lemma JoinsRunning(world: World, before: seq<Op>, joined: Broker, i: nat) returns (stored: Stored)
    requires Joins(world, before, joined, i)
    ensures Running(world, stored, joined, i) && joined.subscribers[i] == FRESH
  {
    stored := StartKept(world, before);
    RunIds(NEW, before, world.size);
    StepCore(Run(NEW, before, world.size), Subscribe, world.size);
  }

  ghost function PassageOf(joined: Broker, turns: seq<Turn>, i: nat, size: Event -> nat): Passage {
    TurnAll(Passage(joined, []), turns, i, size)
  }

  /** What the connection is fed is well formed for every draft, across its own last words. */
  lemma {:induction false} TurnsStand(world: World, before: seq<Op>, joined: Broker, turns: seq<Turn>, i: nat, d: Draft)
    returns (stored: Stored)
    requires Joins(world, before, joined, i) && ProperTurns(world, turns, i)
    ensures var p := PassageOf(joined, turns, i, world.size);
            Running(world, stored, p.broker, i) && Unbroken(world, p, i, d) && AllOwned(world, p.fed)
  {
    if turns == [] {
      stored := JoinsRunning(world, before, joined, i);
    } else {
      var k := |turns| - 1;
      var t, p := turns[k], PassageOf(joined, turns[..k], i, world.size);
      assert t in turns;
      stored := TurnsStand(world, before, joined, turns[..k], i, d);
      if t.Call? {
        CallTurn(world, stored, p, t.op, i, d);
      } else {
        SendTurn(world, stored, p, t.event, i, d);
      }
      stored := StoredTurn(stored, p.broker.core, t, world.size);
    }
  }

  /**
   * The connection's filter forwards the events of a draft that the broker delivers exactly when no
   * episode starts while the connection still shows the last one.
   */
  lemma DraftForwarded(world: World, before: seq<Op>, joined: Broker, turns: seq<Turn>, i: nat, d: Draft)
    requires Joins(world, before, joined, i) && ProperTurns(world, turns, i)
    ensures var fed := PassageOf(joined, turns, i, world.size).fed;
            && ScanFrames(fed, d, world.owner(d).work) != Bad
            && (PassesAll(fed, d) <==> forall k: nat :: !RestartsAt(fed, d, world.owner(d).work, k))
  {
    var stored := TurnsStand(world, before, joined, turns, i, d);
    var p := PassageOf(joined, turns, i, world.size);
    ScanFrom(ScanFrames(p.fed, d, world.owner(d).work), p.broker.subscribers[i].queue, d);
    PassesExactly(world, p.fed, d);
  }

  // ----- which calls let a draft pass -----

  /** The broker, the subscriber and the filter agree on `d`, or nothing of `d` will come. */
  ghost predicate InStep(stored: Stored, core: Core, x: Standing, s: Subscriber, d: Draft, loose: bool) {
    x != Bad && (s.overloaded || Steady(x, s, d) || (Idle(stored, s, d) && (loose || !core.accepting)))
  }

  lemma {:induction false} OverloadStays(s: Subscriber, says: seq<Broadcast>, size: Event -> nat)
    requires s.overloaded && forall a :: a in says ==> WellFormed(a)
    ensures HearAll(s, says, size).overloaded
    decreases |says|
  {
    if says != [] {
      OverloadStays(Hear(s, says[0], size), says[1..], size);
    }
  }

  /** Broadcasts that do not end all drafts of the work of `d`. */
  ghost predicate Sparing(world: World, says: seq<Broadcast>, d: Draft) {
    forall a :: a in says ==> !a.Clear? && (a.Purge? ==> !OfWork(world, d, a.work))
  }

  lemma {:induction false} HearAllSteady(world: World, stored: Stored, x: Standing, s: Subscriber,
                                         says: seq<Broadcast>, d: Draft)
    requires Queued(world, stored, s) && Disciplined(world, stored, says) && Sparing(world, says, d)
    requires s.overloaded || Steady(x, s, d)
    ensures forall a :: a in says ==> WellFormed(a)
    ensures var next := HearAll(s, says, world.size); next.overloaded || Steady(x, next, d)
    decreases |says|
  {
    if says != [] {
      HearQueued(world, stored, s, says[0]);
      if s.overloaded {
        OverloadStays(s, [says[0]], world.size);
        HearTwo(s, says[0], says[0], world.size);
      } else {
        HearSteady(world, stored, x, s, says[0], d);
      }
      HearAllSteady(world, After(stored, says[0]), x, Hear(s, says[0], world.size), says[1..], d);
    }
  }

  lemma {:induction false} HearAllIdle(world: World, stored: Stored, s: Subscriber, says: seq<Broadcast>, d: Draft)
    requires Disciplined(world, stored, says) && Idle(stored, s, d)
    requires forall a :: a in says ==> !(a.Begin? && a.event.Of(d))
    ensures forall a :: a in says ==> WellFormed(a)
    ensures Idle(AfterAll(stored, says), HearAll(s, says, world.size), d)
    decreases |says|
  {
    if says != [] {
      HearIdle(world, stored, s, says[0], d);
      HearAllIdle(world, After(stored, says[0]), Hear(s, says[0], world.size), says[1..], d);
    }
  }

  /** Only an offer of `d` to a broker that accepts begins an episode of `d`. */
  lemma SaysBegin(core: Core, op: Op, size: Event -> nat, a: Broadcast, d: Draft)
    requires a in Effects(core, op, size).says && a.Begin? && a.event.Of(d)
    ensures op.Offer? && op.identity.draft == d && core.accepting
  {
  }

  lemma EffectsAccept(core: Core, op: Op, size: Event -> nat)
    ensures Effects(core, op, size).core.accepting ==> core.accepting
    ensures op == CloseAdmission ==> !Effects(core, op, size).core.accepting
  {
  }

  predicate Offers(op: Op, d: Draft) {
    op.Offer? && op.identity.draft == d
  }

  lemma IdleInStep(world: World, stored: Stored, b: Broker, i: nat, op: Op, x: Standing, d: Draft, loose: bool)
    requires Running(world, stored, b, i) && Proper(world, op) && op != Unsubscribe(i) && op != Receive(i) && x != Bad
    requires Idle(stored, b.subscribers[i], d) && (loose || !b.core.accepting) && (Offers(op, d) ==> !loose)
    ensures var next := Step(b, op, world.size);
            InStep(StoredNext(stored, b.core, op, world.size), next.core, x, next.subscribers[i], d, loose)
  {
    EffectsGood(world, stored, b.core, op);
    EffectsAccept(b.core, op, world.size);
    StepHeard(b, i, op, world.size);
    StepCore(b, op, world.size);
    var says := Effects(b.core, op, world.size).says;
    forall a | a in says
      ensures !(a.Begin? && a.event.Of(d))
    {
      if a.Begin? && a.event.Of(d) {
        SaysBegin(b.core, op, world.size, a, d);
      }
    }
    HearAllIdle(world, stored, b.subscribers[i], says, d);
  }

  lemma SteadyInStep(world: World, stored: Stored, b: Broker, i: nat, op: Op, x: Standing, d: Draft)
    requires Running(world, stored, b, i) && Proper(world, op) && op != Unsubscribe(i) && op != Receive(i) && x != Bad
    requires b.subscribers[i].overloaded || Steady(x, b.subscribers[i], d)
    requires op != CloseAdmission && op != Finalize(world.owner(d).work)
    ensures var s := Step(b, op, world.size).subscribers[i]; s.overloaded || Steady(x, s, d)
  {
    EffectsGood(world, stored, b.core, op);
    StepHeard(b, i, op, world.size);
    SaysPurge(b.core, op, world.size);
    HearAllSteady(world, stored, x, b.subscribers[i], Effects(b.core, op, world.size).says, d);
  }

  /** Closing leaves every subscriber with nothing. */
  lemma CloseIdle(world: World, stored: Stored, b: Broker, i: nat, d: Draft)
    requires Running(world, stored, b, i)
    ensures var next := Step(b, CloseAdmission, world.size);
            && i in next.subscribers && !next.core.accepting
            && Idle(StoredNext(stored, b.core, CloseAdmission, world.size), next.subscribers[i], d)
  {
    HearTwo(b.subscribers[i], Clear, Clear, world.size);
    Says1(world, stored, Clear);
  }

  lemma CallInStep(world: World, stored: Stored, b: Broker, i: nat, op: Op, x: Standing, d: Draft, loose: bool)
    requires Running(world, stored, b, i) && Proper(world, op) && op != Unsubscribe(i) && op != Receive(i)
    requires InStep(stored, b.core, x, b.subscribers[i], d, loose) && (Offers(op, d) ==> !loose)
    ensures var next := Step(b, op, world.size);
            i in next.subscribers
            && InStep(StoredNext(stored, b.core, op, world.size), next.core, x, next.subscribers[i], d,
                      loose || op == Finalize(world.owner(d).work))
  {
    if op == Finalize(world.owner(d).work) {
      FinalStands(world, stored, b, i, op.work, d);
    } else if op == CloseAdmission {
      CloseIdle(world, stored, b, i, d);
    } else if b.subscribers[i].overloaded || Steady(x, b.subscribers[i], d) {
      SteadyInStep(world, stored, b, i, op, x, d);
    } else {
      IdleInStep(world, stored, b, i, op, x, d, loose);
    }
  }

  lemma ReceiveInStep(world: World, stored: Stored, b: Broker, i: nat, x: Standing, d: Draft, loose: bool)
    requires Running(world, stored, b, i) && InStep(stored, b.core, x, b.subscribers[i], d, loose)
    ensures var next, got := Step(b, Receive(i), world.size), Received(b, Receive(i), i);
            && i in next.subscribers && |got| <= 1 && StoredNext(stored, b.core, Receive(i), world.size) == stored
            && InStep(stored, next.core, Scan(x, got, d, true), next.subscribers[i], d, loose)
  {
    ReceiveStands(world, stored, b, i, x, d, true);
    StepSilent(b.core, Receive(i), world.size);
    var s := b.subscribers[i];
    if Deliverable(s) {
      var got := Received(b, Receive(i), i);
      assert got == [s.queue[0]] && got[1..] == [];
      assert Scan(x, got, d, true) == Next(x, s.queue[0], d, true);
      if Steady(x, s, d) {
        ScanFrom(Next(x, s.queue[0], d, true), s.queue[1..], d, true);
      }
    }
  }

  /** The work of `d` was finalized by someone else since the connection last had the last word on it. */
  ghost predicate Loose(world: World, turns: seq<Turn>, d: Draft) {
    if turns == [] then false
    else LooseNext(world, turns[|turns| - 1], d, Loose(world, turns[..|turns| - 1], d))
  }

  ghost predicate LooseNext(world: World, t: Turn, d: Draft, loose: bool) {
    match t
    case Call(op) => loose || op == Finalize(world.owner(d).work)
    case Sends(e) => loose && e.Finalizes() != Some(world.owner(d).work)
  }

  /** Nobody offers `d` between another's finalization of its work and the connection's own. */
  ghost predicate Undisturbed(world: World, turns: seq<Turn>, d: Draft) {
    forall k :: 0 <= k < |turns| && turns[k].Call? && Offers(turns[k].op, d) ==> !Loose(world, turns[..k], d)
  }

  ghost predicate Synced(world: World, stored: Stored, p: Passage, i: nat, d: Draft, loose: bool)
    requires i in p.broker.subscribers
  {
    InStep(stored, p.broker.core, ScanFrames(p.fed, d, world.owner(d).work, true), p.broker.subscribers[i], d, loose)
  }

  lemma CallSynced(world: World, stored: Stored, p: Passage, op: Op, i: nat, d: Draft, loose: bool)
    requires Running(world, stored, p.broker, i) && Synced(world, stored, p, i, d, loose)
    requires Proper(world, op) && op != Unsubscribe(i) && (Offers(op, d) ==> !loose)
    ensures var next := Turned(p, Call(op), i, world.size);
            i in next.broker.subscribers
            && Synced(world, StoredTurn(stored, p.broker.core, Call(op), world.size), next, i, d,
                      LooseNext(world, Call(op), d, loose))
  {
    var work := world.owner(d).work;
    var x := ScanFrames(p.fed, d, work, true);
    if op == Receive(i) {
      ReceiveInStep(world, stored, p.broker, i, x, d, loose);
      FedLives(p.fed, Received(p.broker, op, i), d, work, true);
    } else {
      CallInStep(world, stored, p.broker, i, op, x, d, loose);
      FedLives(p.fed, [], d, work, true);
    }
  }

  lemma SendSynced(world: World, stored: Stored, p: Passage, e: DurableEvent, i: nat, d: Draft, loose: bool)
    requires Running(world, stored, p.broker, i) && Synced(world, stored, p, i, d, loose)
    ensures var next := Turned(p, Sends(e), i, world.size);
            i in next.broker.subscribers
            && Synced(world, StoredTurn(stored, p.broker.core, Sends(e), world.size), next, i, d,
                      LooseNext(world, Sends(e), d, loose))
  {
    var work := world.owner(d).work;
    var x := ScanFrames(p.fed, d, work, true);
    ScanFramesNext(p.fed, Durable(e), d, work, true);
    if e.Finalizes() == Some(work) {
      FinalStands(world, stored, p.broker, i, work, d, true);
      var next := Step(p.broker, Finalize(work), world.size);
      assert Scan(Shut, next.subscribers[i].queue, d, true) == Shut;
      assert Steady(Shut, next.subscribers[i], d);
    } else if e.Finalizes().Some? {
      CallInStep(world, stored, p.broker, i, Finalize(e.Finalizes().value), x, d, loose);
    }
  }

  lemma {:induction false} TurnsSynced(world: World, before: seq<Op>, joined: Broker, turns: seq<Turn>, i: nat, d: Draft)
    returns (stored: Stored)
    requires Joins(world, before, joined, i) && ProperTurns(world, turns, i) && Undisturbed(world, turns, d)
    ensures var p := PassageOf(joined, turns, i, world.size);
            && Running(world, stored, p.broker, i) && Unbroken(world, p, i, d) && AllOwned(world, p.fed)
            && Synced(world, stored, p, i, d, Loose(world, turns, d))
  {
    if turns == [] {
      stored := JoinsRunning(world, before, joined, i);
    } else {
      var k := |turns| - 1;
      var t, p, front := turns[k], PassageOf(joined, turns[..k], i, world.size), turns[..k];
      assert t in turns;
      assert Undisturbed(world, front, d) by {
        assert forall j :: 0 <= j < k ==> front[..j] == turns[..j];
      }
      stored := TurnsSynced(world, before, joined, front, i, d);
      if t.Call? {
        CallTurn(world, stored, p, t.op, i, d);
        CallSynced(world, stored, p, t.op, i, d, Loose(world, front, d));
      } else {
        SendTurn(world, stored, p, t.event, i, d);
        SendSynced(world, stored, p, t.event, i, d, Loose(world, front, d));
      }
      stored := StoredTurn(stored, p.broker.core, t, world.size);
    }
  }

  /** A draft that nobody offers between another's finalization and the connection's own is forwarded whole. */
  lemma UndisturbedForwarded(world: World, before: seq<Op>, joined: Broker, turns: seq<Turn>, i: nat, d: Draft)
    requires Joins(world, before, joined, i) && ProperTurns(world, turns, i) && Undisturbed(world, turns, d)
    ensures PassesAll(PassageOf(joined, turns, i, world.size).fed, d)
  {
    var stored := TurnsSynced(world, before, joined, turns, i, d);
    FilterStrict(world, PassageOf(joined, turns, i, world.size).fed, d);
  }

  // ----- the broker's calls alone -----

  function Calls(ops: seq<Op>): seq<Turn> {
    seq(|ops|, k requires 0 <= k < |ops| => Call(ops[k]))
  }

  lemma LivesConcat(x: seq<Event>, y: seq<Event>)
    ensures Lives(x + y) == Lives(x) + Lives(y)
  {
  }

  lemma {:induction false} CallsFeed(joined: Broker, ops: seq<Op>, i: nat, size: Event -> nat)
    ensures PassageOf(joined, Calls(ops), i, size) ==
            Passage(Run(joined, ops, size), Lives(Delivered(joined, ops, i, size)))
  {
    if ops != [] {
      var k := |ops| - 1;
      assert ops == ops[..k] + [ops[k]] && Calls(ops)[..k] == Calls(ops[..k]);
      CallsFeed(joined, ops[..k], i, size);
      RunLast(joined, ops[..k], ops[k], i, size);
      LivesConcat(Delivered(joined, ops[..k], i, size), Received(Run(joined, ops[..k], size), ops[k], i));
    }
  }

  lemma {:induction false} ScanLives(s: seq<Event>, d: Draft, work: Work)
    ensures ScanFrames(Lives(s), d, work) == Scan(Shut, s, d)
  {
    if s != [] {
      var k := |s| - 1;
      assert s == s[..k] + [s[k]] && Lives(s)[..k] == Lives(s[..k]);
      ScanLives(s[..k], d, work);
      ScanAppend(Shut, s[..k], s[k], d);
    }
  }

  /** The event at `k` starts an episode of its draft while the last one is open. */
  ghost predicate Reopens(s: seq<Event>, k: nat) {
    k < |s| && s[k].payload.Started? && Scan(Shut, s[..k], s[k].identity.draft).Open?
  }

  lemma ReopensAt(s: seq<Event>, d: Draft, work: Work, k: nat)
    ensures RestartsAt(Lives(s), d, work, k) <==> Reopens(s, k) && s[k].Of(d)
  {
    if k < |s| {
      assert Lives(s)[..k] == Lives(s[..k]);
      ScanLives(s[..k], d, work);
    }
  }

  lemma SeesJoins(world: World, before: seq<Op>, after: seq<Op>, seen: Seen)
    requires Sees(world, before, after, seen)
    ensures Joins(world, before, seen.joined, seen.id) && ProperTurns(world, Calls(after), seen.id)
  {
  }

  /** A filter fed what the broker delivers forwards all of it exactly when no episode starts while its draft is open. */
  lemma BrokerForwarded(world: World, before: seq<Op>, after: seq<Op>, seen: Seen)
    requires Sees(world, before, after, seen)
    ensures Filter(Lives(seen.delivered)).out == Lives(seen.delivered) <==> forall k: nat :: !Reopens(seen.delivered, k)
  {
    var s, fed := seen.delivered, Lives(seen.delivered);
    SeesJoins(world, before, after, seen);
    CallsFeed(seen.joined, after, seen.id, world.size);
    FilterForwards(fed);
    forall d
      ensures PassesAll(fed, d) <==> forall k: nat :: !(Reopens(s, k) && s[k].Of(d))
    {
      DraftForwarded(world, before, seen.joined, Calls(after), seen.id, d);
      forall k: nat
        ensures RestartsAt(fed, d, world.owner(d).work, k) <==> Reopens(s, k) && s[k].Of(d)
      {
        ReopensAt(s, d, world.owner(d).work, k);
      }
    }
    forall k: nat | Reopens(s, k)
      ensures exists d :: !PassesAll(fed, d)
    {
      assert s[k].Of(s[k].identity.draft);
      assert !PassesAll(fed, s[k].identity.draft);
    }
  }

  lemma {:induction false} LooseCalls(world: World, ops: seq<Op>, d: Draft)
    ensures Loose(world, Calls(ops), d) <==> Finalize(world.owner(d).work) in ops
  {
    if ops != [] {
      var k := |ops| - 1;
      assert ops == ops[..k] + [ops[k]] && Calls(ops)[..k] == Calls(ops[..k]);
      LooseCalls(world, ops[..k], d);
    }
  }

  /** A draft not offered after a finalization of its work is forwarded whole. */
  lemma UnrevivedForwarded(world: World, before: seq<Op>, after: seq<Op>, seen: Seen, d: Draft)
    requires Sees(world, before, after, seen)
    requires forall k :: 0 <= k < |after| && Offers(after[k], d) ==> Finalize(world.owner(d).work) !in after[..k]
    ensures PassesAll(Lives(seen.delivered), d)
  {
    SeesJoins(world, before, after, seen);
    CallsFeed(seen.joined, after, seen.id, world.size);
    forall k | 0 <= k < |after| && Offers(after[k], d)
      ensures !Loose(world, Calls(after)[..k], d)
    {
      assert Calls(after)[..k] == Calls(after[..k]);
      LooseCalls(world, after[..k], d);
    }
    UndisturbedForwarded(world, before, seen.joined, Calls(after), seen.id, d);
  }
}
