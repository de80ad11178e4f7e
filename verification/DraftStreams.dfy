/**
 * One subscriber's stream, delivered and queued, with the history it came from.
 *
 * `Watched` carries a subscriber together with everything it was delivered, every event it was
 * told of, and the fate of each of those that is not in its stream. `Listen` does to it what
 * `Hear` does to a subscriber.
 */
module DraftStreams {
  import opened DraftEvents
  import opened DraftReadings

  /** A frame and the positions in the log of the events it was made from. */
  datatype Item = Item(event: Event, sources: seq<nat>)

  datatype Cause = Pressure | Overloading | Finalization(work: Work) | Closing

  /** The frames of a subscriber, the events it was told of, and why some of those are not in its frames. */
  datatype Tape = Tape(items: seq<Item>, log: seq<Event>, lost: map<nat, Cause>)

  datatype Watched = Watched(tape: Tape, delivered: nat, eligible: map<Draft, nat>, overloaded: bool, dropped: nat)

  const UNHEARD := Watched(Tape([], [], map[]), 0, map[], false, 0)

  function Events(items: seq<Item>): seq<Event> {
    seq(|items|, i requires 0 <= i < |items| => items[i].event)
  }

  ghost predicate Bounded(w: Watched) {
    w.delivered <= |w.tape.items| <= w.delivered + OUTBOUND_FRAMES
  }

  function Queue(w: Watched): seq<Event>
    requires w.delivered <= |w.tape.items|
  {
    Events(w.tape.items[w.delivered..])
  }

  function Delivery(w: Watched): seq<Event>
    requires w.delivered <= |w.tape.items|
  {
    Events(w.tape.items[..w.delivered])
  }

  function SubscriberOf(w: Watched): Subscriber
    requires w.delivered <= |w.tape.items|
  {
    Subscriber(Queue(w), w.eligible, w.overloaded, w.dropped)
  }

  // ----- the tape -----

  ghost predicate Fits(items: seq<Item>, from: nat, e: Event, p: Placement) {
    && from <= |items|
    && (p.Evict? ==> from + p.at < |items| && !items[from + p.at].event.Structural())
    && (p.Merge? ==> from < |items| && Mergeable(items[|items| - 1].event, e))
  }

  function PlaceItem(items: seq<Item>, from: nat, e: Event, n: nat, p: Placement): seq<Item>
    requires Fits(items, from, e, p)
  {
    match p
    case Append => items + [Item(e, [n])]
    case Evict(k) => items[..from + k] + items[from + k + 1..] + [Item(e, [n])]
    case Merge =>
      var last := items[|items| - 1];
      items[..|items| - 1] + [Item(Coalesce(last.event, e), last.sources + [n])]
    case Drop => items
    case Overload => items
  }

  function RetainItems(items: seq<Item>, work: Work): seq<Item> {
    if items == [] then []
    else (if items[0].event.identity.work != work then [items[0]] else []) + RetainItems(items[1..], work)
  }

  ghost function Sources(items: seq<Item>): set<nat> {
    set x, n | x in items && n in x.sources :: n
  }

  function Lose(lost: map<nat, Cause>, gone: set<nat>, cause: Cause): map<nat, Cause> {
    lost + map n | n in gone :: cause
  }

  ghost function Put(t: Tape, from: nat, e: Event, p: Placement): Tape
    requires Fits(t.items, from, e, p)
  {
    var n := |t.log|;
    var items := PlaceItem(t.items, from, e, n, p);
    match p
    case Append => Tape(items, t.log + [e], t.lost)
    case Merge => Tape(items, t.log + [e], t.lost)
    case Evict(k) => Tape(items, t.log + [e], Lose(t.lost, Sources([t.items[from + k]]), Pressure))
    case Drop => Tape(items, t.log + [e], t.lost[n := Pressure])
    case Overload => Tape(items, t.log + [e], t.lost[n := Overloading])
  }

  /** An event the subscriber is not eligible for: lost if the subscriber was told of its start. */
  ghost function Skip(t: Tape, e: Event): Tape {
    Tape(t.items, t.log + [e], if Begun(t.log, e.identity.draft) then t.lost[|t.log| := Overloading] else t.lost)
  }

  ghost function Cut(t: Tape, items: seq<Item>, cause: Cause): Tape {
    Tape(items, t.log, Lose(t.lost, Sources(t.items) - Sources(items), cause))
  }

  // ----- hearing a broadcast -----

  /** The subscriber after an event is placed. */
  ghost function Taken(w: Watched, e: Event, p: Placement, eligible: map<Draft, nat>): Watched
    requires Fits(w.tape.items, w.delivered, e, p)
  {
    Watched(Put(w.tape, w.delivered, e, p), w.delivered, eligible, w.overloaded || p.Overload?, w.dropped + Drops(p))
  }

  ghost function Listen(w: Watched, a: Broadcast, size: Event -> nat): Watched
    requires w.delivered <= |w.tape.items| && WellFormed(a)
  {
    match a
    case Begin(e) =>
      var p := PlaceStructural(Queue(w));
      if p.Overload? then Taken(w, e, p, w.eligible) else Taken(w, e, p, w.eligible[e.identity.draft := 0])
    case Extend(e) =>
      var d := e.identity.draft;
      if d in w.eligible && e.payload.sequence > w.eligible[d]
      then Taken(w, e, PlaceDelta(Queue(w), e, size), w.eligible[d := e.payload.sequence])
      else w.(tape := Skip(w.tape, e))
    case End(e) =>
      var d := e.identity.draft;
      if d in w.eligible then Taken(w, e, PlaceStructural(Queue(w)), w.eligible - {d}) else w.(tape := Skip(w.tape, e))
    case Purge(work, drafts) =>
      w.(tape := Cut(w.tape, w.tape.items[..w.delivered] + RetainItems(w.tape.items[w.delivered..], work),
                     Finalization(work)),
      eligible := w.eligible - drafts)
    case Clear =>
      w.(tape := Cut(w.tape, w.tape.items[..w.delivered], Closing), eligible := map[])
  }

  /** A receive delivers the head of the queue unless the subscriber is overloaded. */
  function Take(w: Watched): Watched
  {
    if !w.overloaded && w.delivered < |w.tape.items| then w.(delivered := w.delivered + 1) else w
  }

  // ----- erasure -----

  lemma EventsConcat(x: seq<Item>, y: seq<Item>)
    ensures Events(x + y) == Events(x) + Events(y)
  {
  }

  lemma EventsTake(x: seq<Item>, k: nat)
    requires k <= |x|
    ensures Events(x[..k]) == Events(x)[..k] && Events(x[k..]) == Events(x)[k..]
  {
  }

  lemma EventsEvict(x: seq<Item>, k: nat)
    requires k < |x|
    ensures Events(x[..k] + x[k + 1..]) == Events(x)[..k] + Events(x)[k + 1..]
  {
  }

  lemma PlaceLocal(q: seq<Item>, e: Event, n: nat, p: Placement)
    requires Fits(q, 0, e, p)
    ensures Events(PlaceItem(q, 0, e, n, p)) == Place(Events(q), e, p)
  {
  }

  lemma PlaceErases(items: seq<Item>, from: nat, e: Event, n: nat, p: Placement)
    requires Fits(items, from, e, p)
    ensures from <= |PlaceItem(items, from, e, n, p)|
    ensures PlaceItem(items, from, e, n, p)[..from] == items[..from]
    ensures Events(PlaceItem(items, from, e, n, p)[from..]) == Place(Events(items[from..]), e, p)
  {
    var q := items[from..];
    assert Fits(q, 0, e, p);
    assert PlaceItem(items, from, e, n, p) == items[..from] + PlaceItem(q, 0, e, n, p);
    PlaceLocal(q, e, n, p);
  }

  lemma {:induction false} RetainErases(items: seq<Item>, work: Work)
    ensures Events(RetainItems(items, work)) == Retain(Events(items), work)
    ensures |RetainItems(items, work)| <= |items|
    ensures forall x :: x in RetainItems(items, work) <==> x in items && x.event.identity.work != work
  {
    if items != [] {
      RetainErases(items[1..], work);
      var kept := if items[0].event.identity.work != work then [items[0]] else [];
      EventsConcat(kept, RetainItems(items[1..], work));
      assert Events(items)[1..] == Events(items[1..]);
    }
  }

  function SpokenBy(a: Broadcast): seq<Event> {
    match a
    case Begin(e) => [e]
    case Extend(e) => [e]
    case End(e) => [e]
    case _ => []
  }

  /**
   * `next` continues `w`: it is subscriber `s` with a history, `spoken` was added to its log, and
   * what was delivered stands.
   */
  ghost predicate Continues(w: Watched, next: Watched, s: Subscriber, spoken: seq<Event>) {
    && w.delivered == next.delivered <= |w.tape.items| && next.delivered <= |next.tape.items|
    && next.tape.items[..w.delivered] == w.tape.items[..w.delivered]
    && SubscriberOf(next) == s
    && next.tape.log == w.tape.log + spoken
  }

  lemma ContinuesTwice(w: Watched, m: Watched, next: Watched, s: Subscriber, t: Subscriber, x: seq<Event>,
                       y: seq<Event>)
    requires Continues(w, m, s, x) && Continues(m, next, t, y)
    ensures Continues(w, next, t, x + y)
  {
  }

  /** Hearing a broadcast with a history is hearing it. */
  lemma ListenErases(w: Watched, a: Broadcast, size: Event -> nat)
    requires w.delivered <= |w.tape.items| && WellFormed(a)
    ensures Continues(w, Listen(w, a, size), Hear(SubscriberOf(w), a, size), SpokenBy(a))
  {
    var items, from := w.tape.items, w.delivered;
    match a
    case Begin(e) => PlaceErases(items, from, e, |w.tape.log|, PlaceStructural(Queue(w)));
    case Extend(e) => ExtendErases(w, e, size);
    case End(e) => PlaceErases(items, from, e, |w.tape.log|, PlaceStructural(Queue(w)));
    case Purge(work, drafts) =>
      RetainErases(items[from..], work);
      assert (items[..from] + RetainItems(items[from..], work))[from..] == RetainItems(items[from..], work);
    case Clear =>
      assert items[..from][from..] == [];
  }

  lemma ExtendErases(w: Watched, e: Event, size: Event -> nat)
    requires w.delivered <= |w.tape.items| && WellFormed(Extend(e))
    ensures Continues(w, Listen(w, Extend(e), size), Hear(SubscriberOf(w), Extend(e), size), [e])
  {
    PlaceErases(w.tape.items, w.delivered, e, |w.tape.log|, PlaceDelta(Queue(w), e, size));
  }
}
