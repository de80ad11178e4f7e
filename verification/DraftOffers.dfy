/** What is broadcast of a draft, octet by octet, is what was offered. */
module DraftOffers {
  import opened Prelude
  import opened DraftEvents
  import opened DraftReadings
  import opened DraftBroker
  import opened DraftLedger
  import opened DraftStreams
  import opened DraftTheorems
  import opened DraftRuns

  // ----- text -----

  function Octets(kind: Kind, text: Bytes): seq<Atom> {
    seq(|text|, i requires 0 <= i < |text| => Octet(kind, text[i]))
  }

  /** The text of a reading, without its starts and ends. */
  function Letters(atoms: seq<Atom>): seq<Atom> {
    if atoms == [] then []
    else (if atoms[0].Octet? then [atoms[0]] else []) + Letters(atoms[1..])
  }

  lemma {:induction false} LettersConcat(x: seq<Atom>, y: seq<Atom>)
    ensures Letters(x + y) == Letters(x) + Letters(y)
  {
    if x == [] {
      assert x + y == y;
    } else {
      assert (x + y)[0] == x[0] && (x + y)[1..] == x[1..] + y;
      LettersConcat(x[1..], y);
      Associates(if x[0].Octet? then [x[0]] else [], Letters(x[1..]), Letters(y));
    }
  }

  lemma {:induction false} LettersOctets(kind: Kind, text: Bytes)
    ensures Letters(Octets(kind, text)) == Octets(kind, text)
  {
    if text != [] {
      assert Octets(kind, text)[1..] == Octets(kind, text[1..]);
      LettersOctets(kind, text[1..]);
    }
  }

  /** The text of `d` in the episodes begun in the log. */
  ghost function OwedText(log: seq<Event>, d: Draft): seq<Atom> {
    Letters(Reading(Owed(log, d), d, true))
  }

  function TextOf(e: Event): seq<Atom> {
    if e.payload.Delta? then Octets(e.payload.kind, e.payload.text) else []
  }

  lemma OwedNext(log: seq<Event>, e: Event, d: Draft)
    ensures OwedText(log + [e], d) == OwedText(log, d) + if e.Of(d) && Begun(log, d) then TextOf(e) else []
  {
    LogAppend(log, e, d);
    ReadingAppend(Owed(log, d), e, d, true);
    LettersConcat(Reading(Owed(log, d), d, true), EventAtoms(e, d, true));
    if e.payload.Delta? {
      LettersOctets(e.payload.kind, e.payload.text);
      assert e.Of(d) ==> EventAtoms(e, d, true) == TextOf(e);
    }
  }

  // ----- what broadcasts say -----

  /** The text of `d` in some broadcasts, once its start was heard. */
  function SaidText(says: seq<Broadcast>, d: Draft, begun: bool): seq<Atom> {
    if says == [] then [] else Uttered(says[0], d, begun) + SaidText(says[1..], d, Starting(says[0], d, begun))
  }

  function Uttered(a: Broadcast, d: Draft, begun: bool): seq<Atom> {
    if begun && a.Extend? && a.event.Of(d) then TextOf(a.event) else []
  }

  predicate Starting(a: Broadcast, d: Draft, begun: bool) {
    begun || (a.Begin? && a.event.Of(d))
  }

  predicate StartingAll(says: seq<Broadcast>, d: Draft, begun: bool) {
    if says == [] then begun else StartingAll(says[1..], d, Starting(says[0], d, begun))
  }

  /** The log holds the start of a stored draft exactly if it was heard. */
  ghost predicate Begins(stored: Stored, log: seq<Event>, d: Draft, begun: bool) {
    d in stored ==> (Begun(log, d) <==> begun)
  }

  lemma SayText(world: World, stored: Stored, log: seq<Event>, a: Broadcast, d: Draft, begun: bool)
    requires Allowed(world, stored, a) && Begins(stored, log, d, begun)
    ensures Begins(After(stored, a), log + SpokenBy(a), d, Starting(a, d, begun))
    ensures OwedText(log + SpokenBy(a), d) == OwedText(log, d) + Uttered(a, d, begun)
  {
    if SpokenBy(a) == [] {
      assert log + SpokenBy(a) == log;
    } else {
      OwedNext(log, a.event, d);
      LogAppend(log, a.event, d);
    }
  }

  lemma {:induction false} SayAllText(world: World, stored: Stored, log: seq<Event>, says: seq<Broadcast>, d: Draft,
                                      begun: bool)
    requires Disciplined(world, stored, says) && Begins(stored, log, d, begun)
    ensures Begins(AfterAll(stored, says), log + Spoken(says), d, StartingAll(says, d, begun))
    ensures OwedText(log + Spoken(says), d) == OwedText(log, d) + SaidText(says, d, begun)
    decreases |says|
  {
    if says == [] {
      assert log + Spoken(says) == log;
    } else {
      var a, now := says[0], Starting(says[0], d, begun);
      SayText(world, stored, log, a, d, begun);
      SayAllText(world, After(stored, a), log + SpokenBy(a), says[1..], d, now);
      Associates(log, SpokenBy(a), Spoken(says[1..]));
      Associates(OwedText(log, d), Uttered(a, d, begun), SaidText(says[1..], d, now));
    }
  }

  // ----- what offers say -----

  function Looked(core: Core, identity: Identity): ActiveDraft {
    if identity.invocation in core.drafts then core.drafts[identity.invocation] else Draft0(identity)
  }

  /** An offer of `d` that the broker attends to. */
  predicate Admits(core: Core, op: Op, d: Draft) {
    op.Offer? && op.identity.draft == d && core.accepting && !core.closed && Looked(core, op.identity).identity == op.identity
  }

  /** An offer of `d` that grows its draft. */
  predicate Grows(core: Core, op: Op, d: Draft, size: Event -> nat) {
    Admits(core, op, d) && !OverLimit(Looked(core, op.identity), op.kind, op.text, size)
  }

  /** Whether a call begins an episode of `d`, or one was begun. */
  predicate BeginsBy(world: World, core: Core, op: Op, d: Draft, begun: bool) {
    begun || (Admits(core, op, d) && !Holds(world, core.drafts, d))
  }

  /** The text offered of `d` within the delivery limits, from the first episode begun in the run on. */
  ghost function OfferedText(world: World, core: Core, ops: seq<Op>, d: Draft, begun: bool): seq<Atom>
    decreases |ops|
  {
    if ops == [] then []
    else
      var op, now := ops[0], BeginsBy(world, core, ops[0], d, begun);
      (if now && Grows(core, op, d, world.size) then Octets(op.kind, op.text) else [])
      + OfferedText(world, Effects(core, op, world.size).core, ops[1..], d, now)
  }

  lemma Said1(a: Broadcast, d: Draft, begun: bool)
    ensures SaidText([a], d, begun) == Uttered(a, d, begun)
    ensures StartingAll([a], d, begun) == Starting(a, d, begun)
  {
    assert [a][1..] == [];
  }

  lemma {:induction false} SaidConcat(x: seq<Broadcast>, y: seq<Broadcast>, d: Draft, begun: bool)
    ensures SaidText(x + y, d, begun) == SaidText(x, d, begun) + SaidText(y, d, StartingAll(x, d, begun))
    ensures StartingAll(x + y, d, begun) == StartingAll(y, d, StartingAll(x, d, begun))
    decreases |x|
  {
    if x == [] {
      assert x + y == y;
    } else {
      assert (x + y)[0] == x[0] && (x + y)[1..] == x[1..] + y;
      var now := Starting(x[0], d, begun);
      SaidConcat(x[1..], y, d, now);
      Associates(Uttered(x[0], d, begun), SaidText(x[1..], d, now), SaidText(y, d, StartingAll(x[1..], d, now)));
    }
  }

  /** An announced event says its text, if the episode is new or was begun. */
  lemma AnnouncedText(draft: ActiveDraft, a: Broadcast, d: Draft, begun: bool)
    requires !a.Begin?
    ensures var now := begun || (!draft.started && draft.identity.draft == d);
            && StartingAll(Announced(draft, a), d, begun) == now
            && SaidText(Announced(draft, a), d, begun) == Uttered(a, d, now)
  {
    var start := Begin(Event(draft.identity, Started));
    Said1(a, d, begun);
    Said1(a, d, Starting(start, d, begun));
    assert [start, a][1..] == [a];
  }

  lemma SupersedeText(core: Core, identity: Identity, d: Draft, begun: bool)
    ensures SaidText(Supersede(core, identity).says, d, begun) == []
    ensures StartingAll(Supersede(core, identity).says, d, begun) == begun
  {
    var says := Supersede(core, identity).says;
    if says != [] {
      Said1(says[0], d, begun);
      assert says == [says[0]];
    }
  }

  lemma SupersedeLooks(core: Core, identity: Identity)
    ensures Looked(Supersede(core, identity).core, identity) == Looked(core, identity)
  {
  }

  function Second(core: Core, draft: ActiveDraft, kind: Kind, text: Bytes, size: Event -> nat): Effect {
    if OverLimit(draft, kind, text, size) then GiveUp(core, draft) else Grow(core, draft, kind, text)
  }

  /** What an offer broadcasts of its own draft. */
  lemma SecondText(core: Core, draft: ActiveDraft, kind: Kind, text: Bytes, size: Event -> nat, d: Draft, begun: bool)
    ensures var says, now := Second(core, draft, kind, text, size).says, begun || (!draft.started && draft.identity.draft == d);
            && StartingAll(says, d, begun) == now
            && SaidText(says, d, begun) ==
               if now && draft.identity.draft == d && !OverLimit(draft, kind, text, size) then Octets(kind, text) else []
  {
    if OverLimit(draft, kind, text, size) {
      AnnouncedText(draft, End(Event(draft.identity, Abandoned(DeliveryLimit))), d, begun);
    } else {
      AnnouncedText(draft, Extend(NextDelta(draft, kind, text)), d, begun);
    }
  }

  /** The draft an offer finds has been announced exactly if the broker holds it. */
  lemma LookedStarted(world: World, core: Core, identity: Identity)
    requires Kept(world, core) && identity == world.owner(identity.draft) && Looked(core, identity).identity == identity
    ensures Looked(core, identity).started <==> Holds(world, core.drafts, identity.draft)
    ensures Looked(core, identity).nextSequence != U32_MAX
  {
    if identity.invocation in core.drafts {
      assert Sound(world, identity.invocation, core.drafts[identity.invocation]);
    }
  }

  lemma OfferText(world: World, core: Core, op: Op, d: Draft, begun: bool)
    requires Kept(world, core) && op.Offer? && Proper(world, op)
    ensures var says, now := Effects(core, op, world.size).says, BeginsBy(world, core, op, d, begun);
            && StartingAll(says, d, begun) == now
            && SaidText(says, d, begun) == if now && Grows(core, op, d, world.size) then Octets(op.kind, op.text) else []
  {
    if core.accepting && !core.closed {
      var first, draft := Supersede(core, op.identity), Looked(core, op.identity);
      SupersedeText(core, op.identity, d, begun);
      SupersedeLooks(core, op.identity);
      if draft.identity == op.identity {
        LookedStarted(world, core, op.identity);
        var second := Second(first.core, draft, op.kind, op.text, world.size);
        SecondText(first.core, draft, op.kind, op.text, world.size, d, begun);
        SaidConcat(first.says, second.says, d, begun);
        assert Effects(core, op, world.size).says == first.says + second.says;
      }
    }
  }

  lemma EffectText(world: World, stored: Stored, core: Core, op: Op, d: Draft, begun: bool)
    requires Kept(world, core) && Tracks(world, stored, core.drafts) && Proper(world, op)
    ensures var says, now := Effects(core, op, world.size).says, BeginsBy(world, core, op, d, begun);
            && StartingAll(says, d, begun) == now
            && SaidText(says, d, begun) == if now && Grows(core, op, d, world.size) then Octets(op.kind, op.text) else []
  {
    var says := Effects(core, op, world.size).says;
    if op.Offer? {
      OfferText(world, core, op, d, begun);
    } else if says != [] {
      assert says == [says[0]];
      Said1(says[0], d, begun);
    }
  }

  lemma {:induction false} RunText(world: World, stored: Stored, core: Core, log: seq<Event>, ops: seq<Op>, d: Draft,
                                   begun: bool)
    requires Kept(world, core) && Tracks(world, stored, core.drafts) && AllProper(world, ops)
    requires Begins(stored, log, d, begun)
    ensures OwedText(log + Told(core, ops, world.size), d) == OwedText(log, d) + OfferedText(world, core, ops, d, begun)
    decreases |ops|
  {
    if ops == [] {
      assert log + Told(core, ops, world.size) == log;
    } else {
      var effect, now := Effects(core, ops[0], world.size), BeginsBy(world, core, ops[0], d, begun);
      EffectsGood(world, stored, core, ops[0]);
      EffectText(world, stored, core, ops[0], d, begun);
      SayAllText(world, stored, log, effect.says, d, begun);
      RunText(world, AfterAll(stored, effect.says), effect.core, log + Spoken(effect.says), ops[1..], d, now);
      Associates(log, Spoken(effect.says), Told(effect.core, ops[1..], world.size));
      Associates(OwedText(log, d), SaidText(effect.says, d, begun), OfferedText(world, effect.core, ops[1..], d, now));
    }
  }

  /** What is broadcast of `d` after some calls, in episodes begun since, is the text offered since. */
  lemma OffersBroadcast(world: World, before: seq<Op>, after: seq<Op>, d: Draft)
    requires AllProper(world, before) && AllProper(world, after)
    ensures var core := Run(NEW, before, world.size).core;
            OwedText(Told(core, after, world.size), d) == OfferedText(world, core, after, d, false)
  {
    var core := Run(NEW, before, world.size).core;
    var stored := StartKept(world, before);
    RunText(world, stored, core, [], after, d, false);
    assert [] + Told(core, after, world.size) == Told(core, after, world.size);
    assert OwedText([], d) == [];
  }

  // ----- why episodes end -----

  /** One more delta would pass a delivery limit: 262144 octets, 4096 deltas, or a frame of 270336 octets. */
  predicate Exceeds(core: Core, identity: Identity, kind: Kind, text: Bytes, size: Event -> nat) {
    var held := identity.invocation in core.drafts;
    var bytes := if held then core.drafts[identity.invocation].textBytes else 0;
    var deltas := if held then core.drafts[identity.invocation].deltaEvents else 0;
    bytes + |text| > 262_144 || deltas >= 4_096 || size(Event(identity, Delta(deltas + 1, kind, text))) > 270_336
  }

  /** Why a call ends an episode: it abandons it for that reason, it offers a rival of its work, or it exceeds a limit. */
  predicate EndsFor(core: Core, op: Op, e: Event, size: Event -> nat) {
    match op
    case Abandon(invocation, reason) => e.identity.invocation == invocation && e.payload == Abandoned(reason)
    case Offer(identity, kind, text) =>
      || (e.identity.work == identity.work && e.identity.invocation != identity.invocation && e.payload == Abandoned(Superseded))
      || (e == Event(identity, Abandoned(DeliveryLimit)) && Exceeds(core, identity, kind, text, size))
    case _ => false
  }

  lemma SupersedeEnds(world: World, core: Core, identity: Identity)
    requires Kept(world, core)
    ensures var first := Supersede(core, identity);
            && (forall a :: a in first.says ==>
                              && a.End? && a.event.payload == Abandoned(Superseded)
                              && a.event.identity.work == identity.work && a.event.identity.invocation != identity.invocation)
            && (identity.invocation in first.core.drafts <==> identity.invocation in core.drafts)
            && (identity.invocation in core.drafts ==> first.core.drafts[identity.invocation] == core.drafts[identity.invocation])
  {
  }

  lemma CallEnds(world: World, core: Core, op: Op, e: Event)
    requires Kept(world, core) && End(e) in Effects(core, op, world.size).says
    ensures EndsFor(core, op, e, world.size)
  {
    if op.Offer? {
      SupersedeEnds(world, core, op.identity);
      if op.identity.invocation in core.drafts {
        assert Sound(world, op.identity.invocation, core.drafts[op.identity.invocation]);
      }
    } else if op.Abandon? && op.invocation in core.drafts {
      assert Sound(world, op.invocation, core.drafts[op.invocation]);
    }
  }

  lemma {:induction false} SpokenEnd(says: seq<Broadcast>, e: Event)
    requires (forall a :: a in says ==> WellFormed(a)) && e in Spoken(says) && e.payload.Abandoned?
    ensures End(e) in says
  {
    if e !in SpokenBy(says[0]) {
      SpokenEnd(says[1..], e);
    } else {
      assert says[0] in says;
    }
  }

  /** On every run each end told of an episode was told for the reason it carries. */
  lemma {:induction false} EndsExplained(world: World, stored: Stored, core: Core, ops: seq<Op>, e: Event) returns (k: nat)
    requires Kept(world, core) && Tracks(world, stored, core.drafts) && AllProper(world, ops)
    requires e in Told(core, ops, world.size) && e.payload.Abandoned?
    ensures k < |ops| && EndsFor(CoreAfter(core, ops[..k], world.size), ops[k], e, world.size)
    decreases |ops|
  {
    var effect := Effects(core, ops[0], world.size);
    EffectsWellFormed(core, ops[0], world.size);
    if e in Spoken(effect.says) {
      SpokenEnd(effect.says, e);
      CallEnds(world, core, ops[0], e);
      k := 0;
      assert ops[..0] == [];
    } else {
      EffectsGood(world, stored, core, ops[0]);
      k := EndsExplained(world, AfterAll(stored, effect.says), effect.core, ops[1..], e);
      assert ops[..k + 1][1..] == ops[1..][..k];
      k := k + 1;
    }
  }

  /** The same of what a broker has told since it was made. */
  lemma AbandonedFor(world: World, ops: seq<Op>, e: Event) returns (k: nat)
    requires AllProper(world, ops) && e in Told(NEW.core, ops, world.size) && e.payload.Abandoned?
    ensures k < |ops| && EndsFor(Run(NEW, ops[..k], world.size).core, ops[k], e, world.size)
  {
    k := EndsExplained(world, map[], NEW.core, ops, e);
    RunCore(NEW, ops[..k], world.size);
  }
}
