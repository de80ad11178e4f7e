/**
 * Live draft events, the bounded queue of one subscriber, and what it means for the events of
 * one draft to form episodes.
 */
module DraftEvents {
  import opened Prelude

  type Work = nat
  type Draft = nat

  datatype Identity = Identity(conversation: nat, work: Work, invocation: nat, draft: Draft)

  datatype Kind = Text | Refusal

  datatype Reason = ToolContinuation | Superseded | Cancelled | Failed | Interrupted | DeliveryLimit

  datatype Payload = Started | Delta(sequence: nat, kind: Kind, text: Bytes) | Abandoned(reason: Reason)

  datatype Event = Event(identity: Identity, payload: Payload)
  {
    predicate Structural() {
      !payload.Delta?
    }

    predicate Of(d: Draft) {
      identity.draft == d
    }
  }

  /**
   * What the broker is given: the identity behind each draft id, and the encoded size of a frame.
   */
  datatype World = World(owner: Draft -> Identity, size: Event -> nat)

  const OUTBOUND_FRAMES: nat := 16
  const MAX_FRAME_BYTES: nat := 270_336

  // ----- the queue -----

  /** What happens to one event offered to a queue; `Evict` names the position that makes room. */
  datatype Placement = Append | Evict(at: nat) | Merge | Drop | Overload

  /** The position of the first delta, or the length. */
  function FirstDelta(q: seq<Event>): (k: nat)
    ensures k <= |q| && (k < |q| ==> !q[k].Structural())
    ensures forall i :: 0 <= i < k ==> q[i].Structural()
  {
    if q == [] || !q[0].Structural() then 0 else 1 + FirstDelta(q[1..])
  }

  /** A structural event evicts the oldest delta rather than being lost. */
  function PlaceStructural(q: seq<Event>): (p: Placement)
    ensures p.Evict? ==> p.at < |q| && !q[p.at].Structural()
  {
    if |q| < OUTBOUND_FRAMES then Append
    else if FirstDelta(q) < |q| then Evict(FirstDelta(q))
    else Overload
  }

  function Coalesce(last: Event, next: Event): Event
    requires last.payload.Delta? && next.payload.Delta?
  {
    Event(last.identity, Delta(next.payload.sequence, last.payload.kind, last.payload.text + next.payload.text))
  }

  predicate Mergeable(last: Event, next: Event) {
    last.payload.Delta? && next.payload.Delta? && last.Of(next.identity.draft) && last.payload.kind == next.payload.kind
  }

  /** A delta that finds the queue full is folded into the last frame when it may be, or dropped. */
  function PlaceDelta(q: seq<Event>, e: Event, size: Event -> nat): Placement {
    if |q| < OUTBOUND_FRAMES then Append
    else if q != [] && Mergeable(q[|q| - 1], e) && size(Coalesce(q[|q| - 1], e)) <= MAX_FRAME_BYTES then Merge
    else Drop
  }

  function Place(q: seq<Event>, e: Event, p: Placement): seq<Event>
    requires p.Evict? ==> p.at < |q|
    requires p.Merge? ==> q != [] && Mergeable(q[|q| - 1], e)
  {
    match p
    case Append => q + [e]
    case Evict(k) => q[..k] + q[k + 1..] + [e]
    case Merge => q[..|q| - 1] + [Coalesce(q[|q| - 1], e)]
    case Drop => q
    case Overload => q
  }

  /** How far a placement raises the counter of dropped deltas. */
  function Drops(p: Placement): nat {
    if p.Evict? || p.Drop? then 1 else 0
  }

  function Retain(q: seq<Event>, work: Work): seq<Event> {
    if q == [] then []
    else (if q[0].identity.work != work then [q[0]] else []) + Retain(q[1..], work)
  }

  // ----- one subscriber -----

  /** `dropped` is the subscriber's share of the broker's counter of dropped deltas. */
  datatype Subscriber = Subscriber(queue: seq<Event>, eligible: map<Draft, nat>, overloaded: bool, dropped: nat)

  const FRESH := Subscriber([], map[], false, 0)

  /** What the broker does to every subscriber alike. */
  datatype Broadcast =
    | Begin(event: Event)
    | Extend(event: Event)
    | End(event: Event)
    | Purge(work: Work, drafts: set<Draft>)
    | Clear

  predicate WellFormed(a: Broadcast) {
    match a
    case Begin(e) => e.payload == Started
    case Extend(e) => e.payload.Delta?
    case End(e) => e.payload.Abandoned?
    case _ => true
  }

  /** A subscriber after an event is placed in its queue, overloaded or counting a drop. */
  function Placed(s: Subscriber, e: Event, p: Placement, eligible: map<Draft, nat>): Subscriber
    requires p.Evict? ==> p.at < |s.queue|
    requires p.Merge? ==> s.queue != [] && Mergeable(s.queue[|s.queue| - 1], e)
  {
    Subscriber(Place(s.queue, e, p), eligible, s.overloaded || p.Overload?, s.dropped + Drops(p))
  }

  function Hear(s: Subscriber, a: Broadcast, size: Event -> nat): Subscriber
    requires WellFormed(a)
  {
    match a
    case Begin(e) =>
      var p := PlaceStructural(s.queue);
      if p.Overload? then Placed(s, e, p, s.eligible) else Placed(s, e, p, s.eligible[e.identity.draft := 0])
    case Extend(e) =>
      var d := e.identity.draft;
      if d in s.eligible && e.payload.sequence > s.eligible[d]
      then Placed(s, e, PlaceDelta(s.queue, e, size), s.eligible[d := e.payload.sequence])
      else s
    case End(e) =>
      var d := e.identity.draft;
      if d in s.eligible then Placed(s, e, PlaceStructural(s.queue), s.eligible - {d}) else s
    case Purge(work, drafts) => s.(queue := Retain(s.queue, work), eligible := s.eligible - drafts)
    case Clear => s.(queue := [], eligible := map[])
  }

  function HearAll(s: Subscriber, actions: seq<Broadcast>, size: Event -> nat): Subscriber
    requires forall a :: a in actions ==> WellFormed(a)
    decreases |actions|
  {
    if actions == [] then s else HearAll(Hear(s, actions[0], size), actions[1..], size)
  }

  lemma HearTwo(s: Subscriber, a: Broadcast, b: Broadcast, size: Event -> nat)
    requires WellFormed(a) && WellFormed(b)
    ensures HearAll(s, [a], size) == Hear(s, a, size)
    ensures HearAll(s, [a, b], size) == Hear(Hear(s, a, size), b, size)
  {
    assert [a][1..] == [] && [a, b][1..] == [b] && [b][1..] == [];
    assert HearAll(Hear(s, a, size), [b], size) == Hear(Hear(s, a, size), b, size);
  }

  /** Drops are only ever added to a subscriber's share. */
  lemma {:induction false} DropsGrow(s: Subscriber, actions: seq<Broadcast>, size: Event -> nat)
    requires forall a :: a in actions ==> WellFormed(a)
    ensures s.dropped <= HearAll(s, actions, size).dropped
    decreases |actions|
  {
    if actions != [] {
      DropsGrow(Hear(s, actions[0], size), actions[1..], size);
    }
  }

  // ----- episodes -----

  /** Where the events of one draft stand: no open episode, or an open one and its last sequence. */
  datatype Standing = Shut | Open(last: nat) | Bad

  function Next(x: Standing, e: Event, d: Draft, strict: bool := false): Standing {
    if x == Bad || !e.Of(d) then x
    else
      match e.payload
      case Started => if strict && x.Open? then Bad else Open(0)
      case Delta(sequence, _, _) => if x.Open? && sequence > x.last then Open(sequence) else Bad
      case Abandoned(_) => if x.Open? then Shut else Bad
  }

  /**
   * `Bad` exactly when the events of `d` are not episodes `Started Delta* Abandoned?` with increasing
   * sequences or, if `strict`, when one starts before the last has ended.
   */
  function Scan(x: Standing, s: seq<Event>, d: Draft, strict: bool := false): Standing
    decreases |s|
  {
    if s == [] then x else Scan(Next(x, s[0], d, strict), s[1..], d, strict)
  }
}
