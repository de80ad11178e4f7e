/** The drafts a broker holds: what every call keeps of them, and the discipline of what it broadcasts. */
module DraftLedger {
  import opened Prelude
  import opened DraftEvents
  import opened DraftBroker

  // ----- the discipline of broadcasts -----

  /** The last sequence of every stored draft. */
  type Stored = map<Draft, nat>

  predicate OfWork(world: World, d: Draft, work: Work) {
    world.owner(d).work == work
  }

  ghost predicate Allowed(world: World, stored: Stored, a: Broadcast) {
    match a
    case Begin(e) => e.payload == Started && e.identity == world.owner(e.identity.draft) && e.identity.draft !in stored
    case Extend(e) =>
      && e.payload.Delta? && e.identity == world.owner(e.identity.draft) && world.size(e) <= MAX_FRAME_BYTES
      && e.identity.draft in stored && e.payload.sequence == stored[e.identity.draft] + 1
    case End(e) => e.payload.Abandoned? && e.identity == world.owner(e.identity.draft) && e.identity.draft in stored
    case Purge(work, drafts) => forall d :: d in drafts <==> d in stored && OfWork(world, d, work)
    case Clear => true
  }

  function After(stored: Stored, a: Broadcast): Stored {
    match a
    case Begin(e) => stored[e.identity.draft := 0]
    case Extend(e) => if e.payload.Delta? then stored[e.identity.draft := e.payload.sequence] else stored
    case End(e) => stored - {e.identity.draft}
    case Purge(_, drafts) => stored - drafts
    case Clear => map[]
  }

  ghost predicate Disciplined(world: World, stored: Stored, actions: seq<Broadcast>)
    decreases |actions|
  {
    actions == [] || (Allowed(world, stored, actions[0]) && Disciplined(world, After(stored, actions[0]), actions[1..]))
  }

  function AfterAll(stored: Stored, actions: seq<Broadcast>): Stored
    decreases |actions|
  {
    if actions == [] then stored else AfterAll(After(stored, actions[0]), actions[1..])
  }

  lemma {:induction false} DisciplinedConcat(world: World, stored: Stored, x: seq<Broadcast>, y: seq<Broadcast>)
    requires Disciplined(world, stored, x) && Disciplined(world, AfterAll(stored, x), y)
    ensures Disciplined(world, stored, x + y) && AfterAll(stored, x + y) == AfterAll(AfterAll(stored, x), y)
    decreases |x|
  {
    if x == [] {
      assert x + y == y;
    } else {
      assert (x + y)[1..] == x[1..] + y;
      DisciplinedConcat(world, After(stored, x[0]), x[1..], y);
    }
  }

  // ----- the invariant -----

  /** Stored drafts are started, numbered by their deltas, and within both delivery limits. */
  ghost predicate Sound(world: World, i: nat, draft: ActiveDraft) {
    && draft.identity.invocation == i && draft.identity == world.owner(draft.identity.draft)
    && draft.started && 1 <= draft.nextSequence == draft.deltaEvents <= MAX_DRAFT_EVENTS
    && draft.textBytes <= MAX_DRAFT_TEXT_BYTES
  }

  ghost predicate OnePerWork(drafts: map<nat, ActiveDraft>) {
    forall i, j :: i in drafts && j in drafts && drafts[i].identity.work == drafts[j].identity.work ==> i == j
  }

  ghost predicate Kept(world: World, core: Core) {
    && (forall i :: i in core.drafts ==> Sound(world, i, core.drafts[i]))
    && OnePerWork(core.drafts)
    && (!core.accepting ==> core.drafts == map[])
    && core.started == core.abandoned + |core.drafts| + core.discarded
  }

  predicate Holds(world: World, drafts: map<nat, ActiveDraft>, d: Draft) {
    var i := world.owner(d).invocation;
    i in drafts && drafts[i].identity.draft == d
  }

  function Last(world: World, drafts: map<nat, ActiveDraft>, d: Draft): nat
    requires Holds(world, drafts, d)
  {
    drafts[world.owner(d).invocation].nextSequence
  }

  /** `stored` is the ids of the stored drafts, with their last sequences. */
  ghost predicate Tracks(world: World, stored: Stored, drafts: map<nat, ActiveDraft>) {
    && (forall d :: d in stored <==> Holds(world, drafts, d))
    && (forall d :: d in stored ==> stored[d] == Last(world, drafts, d))
  }

  // ----- every call -----

  ghost predicate Proper(world: World, op: Op) {
    op.Offer? ==> op.identity == world.owner(op.identity.draft)
  }

  /** An effect that keeps the invariant and broadcasts only what the discipline allows. */
  ghost predicate Good(world: World, stored: Stored, effect: Effect) {
    && Kept(world, effect.core)
    && Disciplined(world, stored, effect.says)
    && Tracks(world, AfterAll(stored, effect.says), effect.core.drafts)
  }

  lemma Says1(world: World, stored: Stored, a: Broadcast)
    ensures Disciplined(world, stored, [a]) <==> Allowed(world, stored, a)
    ensures AfterAll(stored, [a]) == After(stored, a)
  {
  }

  lemma Says2(world: World, stored: Stored, a: Broadcast, b: Broadcast)
    ensures Disciplined(world, stored, [a, b]) <==> Allowed(world, stored, a) && Allowed(world, After(stored, a), b)
    ensures AfterAll(stored, [a, b]) == After(After(stored, a), b)
  {
    assert [a, b][1..] == [b];
    Says1(world, After(stored, a), b);
  }

  lemma AddOne(drafts: map<nat, ActiveDraft>, i: nat, draft: ActiveDraft)
    ensures |drafts[i := draft]| == |drafts| + if i in drafts then 0 else 1
  {
  }

  lemma KeptRemove(world: World, core: Core, i: nat, started: nat)
    requires Kept(world, core)
    requires started == core.started + if i in core.drafts then 0 else 1
    ensures Kept(world, core.(drafts := core.drafts - {i}, started := started, abandoned := core.abandoned + 1))
  {
  }

  lemma TracksRemove(world: World, stored: Stored, drafts: map<nat, ActiveDraft>, d: Draft)
    requires Tracks(world, stored, drafts)
    requires var i := world.owner(d).invocation; i in drafts ==> drafts[i].identity.draft == d
    ensures Tracks(world, stored - {d}, drafts - {world.owner(d).invocation})
  {
  }

  lemma TracksSet(world: World, stored: Stored, drafts: map<nat, ActiveDraft>, d: Draft, grown: ActiveDraft)
    requires Tracks(world, stored, drafts) && grown.identity.draft == d
    requires var i := world.owner(d).invocation; i in drafts ==> drafts[i].identity.draft == d
    ensures Tracks(world, stored[d := grown.nextSequence], drafts[world.owner(d).invocation := grown])
  {
  }

  lemma AbandonGood(world: World, stored: Stored, core: Core, i: nat, reason: Reason)
    requires Kept(world, core) && Tracks(world, stored, core.drafts) && i in core.drafts
    ensures Good(world, stored, AbandonDraft(core, i, reason))
  {
    var draft := core.drafts[i];
    var d := draft.identity.draft;
    assert Sound(world, i, draft);
    assert d in stored by { assert Holds(world, core.drafts, d); }
    KeptRemove(world, core, i, core.started);
    TracksRemove(world, stored, core.drafts, d);
    Says1(world, stored, End(Event(draft.identity, Abandoned(reason))));
  }

  /** What superseding leaves: no other draft of this work. */
  lemma SupersedeGood(world: World, stored: Stored, core: Core, identity: Identity)
    requires Kept(world, core) && Tracks(world, stored, core.drafts)
    ensures Good(world, stored, Supersede(core, identity))
    ensures Rivals(Supersede(core, identity).core, identity) == {}
    ensures Supersede(core, identity).core.accepting == core.accepting
  {
    var rivals := Rivals(core, identity);
    if rivals != {} {
      forall i | i in rivals
        ensures Good(world, stored, AbandonDraft(core, i, Superseded))
        ensures Rivals(AbandonDraft(core, i, Superseded).core, identity) == {}
      {
        AbandonGood(world, stored, core, i, Superseded);
      }
    }
  }

  /** The draft an offer grows: stored, or new to the broker. */
  ghost predicate Growable(world: World, drafts: map<nat, ActiveDraft>, draft: ActiveDraft) {
    && draft.identity == world.owner(draft.identity.draft)
    && (draft.identity.invocation in drafts ==> draft == drafts[draft.identity.invocation])
    && (draft.identity.invocation !in drafts ==> draft == Draft0(draft.identity))
  }

  /** An announced event is allowed when it is allowed once the draft is stored. */
  lemma AnnouncedGood(world: World, stored: Stored, draft: ActiveDraft, a: Broadcast)
    requires draft.identity == world.owner(draft.identity.draft)
    requires draft.identity.draft in stored <==> draft.started
    requires Allowed(world, if draft.started then stored else stored[draft.identity.draft := 0], a)
    ensures Disciplined(world, stored, Announced(draft, a))
    ensures AfterAll(stored, Announced(draft, a)) == After(if draft.started then stored else stored[draft.identity.draft := 0], a)
  {
    Says1(world, stored, a);
    Says2(world, stored, Begin(Event(draft.identity, Started)), a);
  }

  lemma GrowableStored(world: World, stored: Stored, drafts: map<nat, ActiveDraft>, draft: ActiveDraft)
    requires forall i :: i in drafts ==> Sound(world, i, drafts[i])
    requires Tracks(world, stored, drafts) && Growable(world, drafts, draft)
    ensures draft.started <==> draft.identity.draft in stored
    ensures draft.started <==> draft.identity.invocation in drafts
    ensures draft.started ==> stored[draft.identity.draft] == draft.nextSequence
    ensures !draft.started ==> draft.nextSequence == 0
  {
  }

  lemma GiveUpSays(world: World, stored: Stored, draft: ActiveDraft)
    requires draft.identity == world.owner(draft.identity.draft)
    requires draft.identity.draft in stored <==> draft.started
    ensures var says := Announced(draft, End(Event(draft.identity, Abandoned(DeliveryLimit))));
            Disciplined(world, stored, says) && AfterAll(stored, says) == stored - {draft.identity.draft}
  {
    AnnouncedGood(world, stored, draft, End(Event(draft.identity, Abandoned(DeliveryLimit))));
    assert stored[draft.identity.draft := 0] - {draft.identity.draft} == stored - {draft.identity.draft};
  }

  lemma GiveUpGood(world: World, stored: Stored, core: Core, draft: ActiveDraft)
    requires Kept(world, core) && Tracks(world, stored, core.drafts) && Growable(world, core.drafts, draft)
    ensures Good(world, stored, GiveUp(core, draft))
  {
    GrowableStored(world, stored, core.drafts, draft);
    KeptRemove(world, core, draft.identity.invocation, core.started + Announcements(draft));
    TracksRemove(world, stored, core.drafts, draft.identity.draft);
    GiveUpSays(world, stored, draft);
  }

  lemma GrowKept(world: World, core: Core, draft: ActiveDraft, grown: ActiveDraft, started: nat)
    requires Kept(world, core) && core.accepting && Rivals(core, draft.identity) == {}
    requires Growable(world, core.drafts, draft)
    requires Sound(world, draft.identity.invocation, grown) && grown.identity == draft.identity
    requires started == core.started + Announcements(draft)
    ensures Kept(world, core.(drafts := core.drafts[draft.identity.invocation := grown], started := started))
  {
    var i := draft.identity.invocation;
    var after := core.drafts[i := grown];
    AddOne(core.drafts, i, grown);
    forall a, b | a in after && b in after && after[a].identity.work == after[b].identity.work
      ensures a == b
    {
      assert a !in Rivals(core, draft.identity) && b !in Rivals(core, draft.identity);
    }
  }

  lemma GrowGood(world: World, stored: Stored, core: Core, draft: ActiveDraft, kind: Kind, text: Bytes)
    requires Kept(world, core) && core.accepting && Rivals(core, draft.identity) == {}
    requires Tracks(world, stored, core.drafts) && Growable(world, core.drafts, draft)
    requires !OverLimit(draft, kind, text, world.size)
    ensures Good(world, stored, Grow(core, draft, kind, text))
  {
    var i, d, grown := draft.identity.invocation, draft.identity.draft, Grown(draft, text);
    GrowableStored(world, stored, core.drafts, draft);
    assert Sound(world, i, grown) by {
      assert i in core.drafts ==> Sound(world, i, core.drafts[i]);
    }
    GrowKept(world, core, draft, grown, core.started + Announcements(draft));
    TracksSet(world, stored, core.drafts, d, grown);
    AnnouncedGood(world, stored, draft, Extend(NextDelta(draft, kind, text)));
    assert stored[d := 0][d := grown.nextSequence] == stored[d := grown.nextSequence];
  }

  lemma OfferGood(world: World, stored: Stored, core: Core, identity: Identity, kind: Kind, text: Bytes)
    requires Kept(world, core) && Tracks(world, stored, core.drafts) && identity == world.owner(identity.draft)
    ensures Good(world, stored, Offered(core, identity, kind, text, world.size))
  {
    if !core.closed && core.accepting {
      SupersedeGood(world, stored, core, identity);
      var first := Supersede(core, identity);
      var draft := if identity.invocation in first.core.drafts then first.core.drafts[identity.invocation] else Draft0(identity);
      if draft.identity == identity && draft.nextSequence != U32_MAX {
        var middle := AfterAll(stored, first.says);
        if OverLimit(draft, kind, text, world.size) {
          GiveUpGood(world, middle, first.core, draft);
          DisciplinedConcat(world, stored, first.says, GiveUp(first.core, draft).says);
        } else {
          GrowGood(world, middle, first.core, draft, kind, text);
          DisciplinedConcat(world, stored, first.says, Grow(first.core, draft, kind, text).says);
        }
      }
    }
  }

  lemma PurgeSays(world: World, stored: Stored, drafts: map<nat, ActiveDraft>, work: Work)
    requires forall i :: i in drafts ==> Sound(world, i, drafts[i])
    requires Tracks(world, stored, drafts)
    ensures var says := [Purge(work, DraftIdsOf(drafts, work))];
            Disciplined(world, stored, says) && AfterAll(stored, says) == stored - DraftIdsOf(drafts, work)
  {
  }

  lemma TracksPurge(world: World, stored: Stored, drafts: map<nat, ActiveDraft>, work: Work)
    requires forall i :: i in drafts ==> Sound(world, i, drafts[i])
    requires Tracks(world, stored, drafts)
    ensures Tracks(world, stored - DraftIdsOf(drafts, work), drafts - DraftsOf(drafts, work))
  {
  }

  lemma KeptPurge(world: World, core: Core, gone: set<nat>)
    requires Kept(world, core) && gone <= core.drafts.Keys
    ensures Kept(world, core.(drafts := core.drafts - gone, discarded := core.discarded + |gone|))
  {
  }

  lemma FinalizeGood(world: World, stored: Stored, core: Core, work: Work)
    requires Kept(world, core) && Tracks(world, stored, core.drafts)
    ensures Good(world, stored, Finalized(core, work))
  {
    KeptPurge(world, core, DraftsOf(core.drafts, work));
    TracksPurge(world, stored, core.drafts, work);
    PurgeSays(world, stored, core.drafts, work);
  }

  /** Every call keeps the stored drafts sound and broadcasts by the discipline. */
  lemma EffectsGood(world: World, stored: Stored, core: Core, op: Op)
    requires Kept(world, core) && Tracks(world, stored, core.drafts) && Proper(world, op)
    ensures Good(world, stored, Effects(core, op, world.size))
  {
    match op
    case Offer(identity, kind, text) => OfferGood(world, stored, core, identity, kind, text);
    case Abandon(invocation, reason) =>
      if invocation in core.drafts {
        AbandonGood(world, stored, core, invocation, reason);
      }
    case Finalize(work) => FinalizeGood(world, stored, core, work);
    case RaiseClosed =>
    case CloseAdmission => Says1(world, stored, Clear);
    case Subscribe =>
    case Receive(_) =>
    case Unsubscribe(_) =>
  }
}
