/**
 * The live event broker: which drafts it holds, and what it broadcasts.
 *
 * The drafts evolve without looking at the subscribers, and every subscriber hears the same
 * broadcasts. `Broker` is the broker's value and `Step` one call on it; `LiveEventBroker` is the
 * object whose methods update its maps in place, proved against `Step`.
 */
module DraftBroker {
  import opened Prelude
  import opened DraftEvents

  const MAX_DRAFT_TEXT_BYTES: nat := 262_144
  const MAX_DRAFT_EVENTS: nat := 4_096
  const U32_MAX: nat := 4_294_967_295

  datatype ActiveDraft = ActiveDraft(identity: Identity, nextSequence: nat, textBytes: nat, deltaEvents: nat, started: bool)

  /** `discarded` is history: drafts removed by finalization or by closing. */
  datatype Core = Core(accepting: bool, closed: bool, drafts: map<nat, ActiveDraft>, started: nat, abandoned: nat, discarded: nat)

  datatype Effect = Effect(core: Core, says: seq<Broadcast>, exposed: bool)

  /** The drafts a delta supersedes: those of the same work under another invocation. */
  function Rivals(core: Core, identity: Identity): set<nat> {
    set i | i in core.drafts && core.drafts[i].identity.work == identity.work && i != identity.invocation
  }

  function AbandonDraft(core: Core, invocation: nat, reason: Reason): Effect
    requires invocation in core.drafts
  {
    var draft := core.drafts[invocation];
    var left := core.(drafts := core.drafts - {invocation});
    if draft.started
    then Effect(left.(abandoned := core.abandoned + 1), [End(Event(draft.identity, Abandoned(reason)))], true)
    else Effect(left, [], true)
  }

  /** The broker holds at most one draft of a work, so at most one rival is superseded. */
  ghost function Supersede(core: Core, identity: Identity): Effect {
    var rivals := Rivals(core, identity);
    if rivals == {} then Effect(core, [], true)
    else
      var i :| i in rivals;
      AbandonDraft(core, i, Superseded)
  }

  function Draft0(identity: Identity): ActiveDraft {
    ActiveDraft(identity, 0, 0, 0, false)
  }

  /** The broadcasts of an episode's next event, announcing the episode first if it is new. */
  function Announced(draft: ActiveDraft, a: Broadcast): seq<Broadcast> {
    if draft.started then [a] else [Begin(Event(draft.identity, Started)), a]
  }

  function Announcements(draft: ActiveDraft): nat {
    if draft.started then 0 else 1
  }

  /** An episode that exceeds a delivery limit is abandoned; one not yet announced is announced first. */
  function GiveUp(core: Core, draft: ActiveDraft): Effect {
    Effect(core.(drafts := core.drafts - {draft.identity.invocation},
           started := core.started + Announcements(draft), abandoned := core.abandoned + 1),
           Announced(draft, End(Event(draft.identity, Abandoned(DeliveryLimit)))), true)
  }

  function NextDelta(draft: ActiveDraft, kind: Kind, text: Bytes): Event {
    Event(draft.identity, Delta(draft.nextSequence + 1, kind, text))
  }

  function Grown(draft: ActiveDraft, text: Bytes): ActiveDraft {
    ActiveDraft(draft.identity, draft.nextSequence + 1, draft.textBytes + |text|, draft.deltaEvents + 1, true)
  }

  predicate OverLimit(draft: ActiveDraft, kind: Kind, text: Bytes, size: Event -> nat) {
    || draft.textBytes + |text| > MAX_DRAFT_TEXT_BYTES
    || draft.deltaEvents >= MAX_DRAFT_EVENTS
    || size(NextDelta(draft, kind, text)) > MAX_FRAME_BYTES
  }

  function Grow(core: Core, draft: ActiveDraft, kind: Kind, text: Bytes): Effect {
    Effect(core.(drafts := core.drafts[draft.identity.invocation := Grown(draft, text)],
           started := core.started + Announcements(draft)),
           Announced(draft, Extend(NextDelta(draft, kind, text))), true)
  }

  ghost function Offered(core: Core, identity: Identity, kind: Kind, text: Bytes, size: Event -> nat): Effect {
    if core.closed || !core.accepting then Effect(core, [], false)
    else
      var first := Supersede(core, identity);
      var draft := if identity.invocation in first.core.drafts then first.core.drafts[identity.invocation] else Draft0(identity);
      if draft.identity != identity || draft.nextSequence == U32_MAX then first
      else
        var second := if OverLimit(draft, kind, text, size) then GiveUp(first.core, draft) else Grow(first.core, draft, kind, text);
        second.(says := first.says + second.says)
  }

  function DraftsOf(drafts: map<nat, ActiveDraft>, work: Work): set<nat> {
    set i | i in drafts && drafts[i].identity.work == work
  }

  function DraftIdsOf(drafts: map<nat, ActiveDraft>, work: Work): set<Draft> {
    set i | i in drafts && drafts[i].identity.work == work :: drafts[i].identity.draft
  }

  function Finalized(core: Core, work: Work): Effect {
    var gone := DraftsOf(core.drafts, work);
    Effect(core.(drafts := core.drafts - gone, discarded := core.discarded + |gone|),
           [Purge(work, DraftIdsOf(core.drafts, work))], true)
  }

  function ClosedDown(core: Core): Effect {
    Effect(core.(accepting := false, drafts := map[], discarded := core.discarded + |core.drafts|), [Clear], true)
  }

  datatype Op =
    | Offer(identity: Identity, kind: Kind, text: Bytes)
    | Abandon(invocation: nat, reason: Reason)
    | Finalize(work: Work)
    | RaiseClosed
    | CloseAdmission
    | Subscribe
    | Receive(id: nat)
    | Unsubscribe(id: nat)

  /** What a call does to the drafts, and what every subscriber hears of it. */
  ghost function Effects(core: Core, op: Op, size: Event -> nat): Effect {
    match op
    case Offer(identity, kind, text) => Offered(core, identity, kind, text, size)
    case Abandon(invocation, reason) =>
      if invocation in core.drafts then AbandonDraft(core, invocation, reason) else Effect(core, [], true)
    case Finalize(work) => Finalized(core, work)
    case RaiseClosed => Effect(core.(closed := true), [], true)
    case CloseAdmission => ClosedDown(core)
    case _ => Effect(core, [], true)
  }

  /** `gone` is history: the drops counted for subscribers that have left. */
  datatype Broker = Broker(core: Core, nextId: nat, subscribers: map<nat, Subscriber>, gone: nat)

  const NEW := Broker(Core(true, false, map[], 0, 0, 0), 1, map[], 0)

  predicate Numbered(b: Broker) {
    forall j :: j in b.subscribers ==> j < b.nextId
  }

  function Share(subscribers: map<nat, Subscriber>, i: nat): nat {
    if i in subscribers then subscribers[i].dropped else 0
  }

  /** The drops counted for the subscribers with ids below `n`. */
  function Shares(subscribers: map<nat, Subscriber>, n: nat): nat {
    if n == 0 then 0 else Share(subscribers, n - 1) + Shares(subscribers, n - 1)
  }

  /** The broker's counter of dropped deltas. */
  function DroppedDeltas(b: Broker): nat {
    b.gone + Shares(b.subscribers, b.nextId)
  }

  /** Changing one share changes the total by as much. */
  lemma {:induction false} SharesChange(was: map<nat, Subscriber>, now: map<nat, Subscriber>, n: nat, i: nat)
    requires forall j :: 0 <= j < n && j != i ==> Share(was, j) == Share(now, j)
    ensures Shares(now, n) + (if i < n then Share(was, i) else 0) == Shares(was, n) + if i < n then Share(now, i) else 0
  {
    if n > 0 {
      SharesChange(was, now, n - 1, i);
    }
  }

  /** A subscriber that is overloaded is told so and receives nothing more. */
  predicate Deliverable(s: Subscriber) {
    !s.overloaded && s.queue != []
  }

  function Pop(s: Subscriber): Subscriber {
    if Deliverable(s) then s.(queue := s.queue[1..]) else s
  }

  lemma OfferedWellFormed(core: Core, identity: Identity, kind: Kind, text: Bytes, size: Event -> nat)
    ensures forall a :: a in Offered(core, identity, kind, text, size).says ==> WellFormed(a)
  {
    assert forall a :: a in Supersede(core, identity).says ==> WellFormed(a);
  }

  lemma EffectsWellFormed(core: Core, op: Op, size: Event -> nat)
    ensures forall a :: a in Effects(core, op, size).says ==> WellFormed(a)
  {
    if op.Offer? {
      OfferedWellFormed(core, op.identity, op.kind, op.text, size);
    }
  }

  ghost function Step(b: Broker, op: Op, size: Event -> nat): Broker {
    EffectsWellFormed(b.core, op, size);
    var effect := Effects(b.core, op, size);
    var heard := map i | i in b.subscribers :: HearAll(b.subscribers[i], effect.says, size);
    match op
    case Subscribe =>
      if b.core.accepting then b.(nextId := b.nextId + 1, subscribers := b.subscribers[b.nextId := FRESH]) else b
    case Receive(i) =>
      if i in b.subscribers then b.(subscribers := b.subscribers[i := Pop(b.subscribers[i])]) else b
    case Unsubscribe(i) =>
      if i in b.subscribers then b.(subscribers := b.subscribers - {i}, gone := b.gone + b.subscribers[i].dropped) else b
    case _ => b.(core := effect.core, subscribers := heard)
  }
}
