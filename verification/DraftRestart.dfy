/**
 * A run of the broker after which a connection's filter drops a start: a work is finalized while a
 * subscriber has an episode open, and the same draft is offered again.
 */
module DraftRestart {
  import opened Prelude
  import opened DraftEvents
  import opened DraftBroker
  import opened DraftFilter
  import opened DraftRuns

  /** A broker that accepts, with one subscriber. */
  ghost predicate One(b: Broker, drafts: map<nat, ActiveDraft>, s: Subscriber) {
    b.core.accepting && !b.core.closed && b.core.drafts == drafts && b.subscribers == map[1 := s]
  }

  ghost predicate Fits(identity: Identity, kind: Kind, text: Bytes, size: Event -> nat) {
    |text| <= MAX_DRAFT_TEXT_BYTES && size(Event(identity, Delta(1, kind, text))) <= MAX_FRAME_BYTES
  }

  function Begun(identity: Identity, kind: Kind, text: Bytes): Subscriber {
    Subscriber([Event(identity, Started), Event(identity, Delta(1, kind, text))], map[identity.draft := 1], false, 0)
  }

  lemma OfferToFresh(b: Broker, identity: Identity, kind: Kind, text: Bytes, size: Event -> nat)
    requires One(b, map[], FRESH) && Fits(identity, kind, text, size)
    ensures One(Step(b, Offer(identity, kind, text), size),
                map[identity.invocation := ActiveDraft(identity, 1, |text|, 1, true)], Begun(identity, kind, text))
  {
    var started, delta := Event(identity, Started), Event(identity, Delta(1, kind, text));
    assert Rivals(b.core, identity) == {};
    assert Effects(b.core, Offer(identity, kind, text), size).says == [Begin(started), Extend(delta)];
    HearTwo(FRESH, Begin(started), Extend(delta), size);
    assert Hear(FRESH, Begin(started), size) == Subscriber([started], map[identity.draft := 0], false, 0);
    assert Hear(Subscriber([started], map[identity.draft := 0], false, 0), Extend(delta), size) ==
           Begun(identity, kind, text);
  }

  lemma ReceiveOne(b: Broker, drafts: map<nat, ActiveDraft>, s: Subscriber, size: Event -> nat)
    requires One(b, drafts, s) && s.queue != [] && !s.overloaded
    ensures One(Step(b, Receive(1), size), drafts, s.(queue := s.queue[1..]))
            && Received(b, Receive(1), 1) == [s.queue[0]]
  {
  }

  lemma FinalizeOne(b: Broker, identity: Identity, draft: ActiveDraft, size: Event -> nat)
    requires One(b, map[identity.invocation := draft], Subscriber([], map[identity.draft := 1], false, 0))
             && draft.identity == identity
    ensures One(Step(b, Finalize(identity.work), size), map[], FRESH)
  {
    var ids := DraftIdsOf(b.core.drafts, identity.work);
    assert DraftsOf(b.core.drafts, identity.work) == {identity.invocation};
    assert identity.draft in ids by {
      assert identity.invocation in b.core.drafts;
    }
    HearTwo(b.subscribers[1], Purge(identity.work, ids), Clear, size);
    assert Hear(b.subscribers[1], Purge(identity.work, ids), size) == FRESH;
  }

  function Script(identity: Identity, kind: Kind, text: Bytes): seq<Op> {
    [Offer(identity, kind, text), Receive(1), Receive(1), Finalize(identity.work), Offer(identity, kind, text),
     Receive(1)]
  }

  lemma DeliveredFirst(b: Broker, op: Op, rest: seq<Op>, size: Event -> nat)
    ensures Delivered(b, [op] + rest, 1, size) == Received(b, op, 1) + Delivered(Step(b, op, size), rest, 1, size)
  {
    assert ([op] + rest)[1..] == rest;
  }

  /** The broker delivers a restart, well formed by its own measure, whose second start the filter drops. */
  lemma BrokerRestarts(identity: Identity, kind: Kind, text: Bytes, size: Event -> nat)
    requires Fits(identity, kind, text, size)
    ensures Delivered(Step(NEW, Subscribe, size), Script(identity, kind, text), 1, size) ==
            Restart(identity, kind, text)
    ensures Scan(Shut, Restart(identity, kind, text), identity.draft) != Bad
    ensures var s := Restart(identity, kind, text);
            Filter([Live(s[0])] + [Live(s[1])] + [Live(s[2])]).out == [Live(s[0]), Live(s[1])]
  {
    RestartEpisodes(identity, kind, text);
    RestartDropped(identity, kind, text);
    var offer, draft := Offer(identity, kind, text), ActiveDraft(identity, 1, |text|, 1, true);
    var held := map[identity.invocation := draft];
    var begun := Begun(identity, kind, text);
    var b0 := Step(NEW, Subscribe, size);
    assert One(b0, map[], FRESH);
    OfferToFresh(b0, identity, kind, text, size);
    var b1 := Step(b0, offer, size);
    ReceiveOne(b1, held, begun, size);
    var b2 := Step(b1, Receive(1), size);
    ReceiveOne(b2, held, begun.(queue := begun.queue[1..]), size);
    var b3 := Step(b2, Receive(1), size);
    assert begun.queue[1..][1..] == [];
    FinalizeOne(b3, identity, draft, size);
    var b4 := Step(b3, Finalize(identity.work), size);
    OfferToFresh(b4, identity, kind, text, size);
    var b5 := Step(b4, offer, size);
    ReceiveOne(b5, held, begun, size);
    DeliveredFirst(b0, offer, [Receive(1), Receive(1), Finalize(identity.work), offer, Receive(1)], size);
    DeliveredFirst(b1, Receive(1), [Receive(1), Finalize(identity.work), offer, Receive(1)], size);
    DeliveredFirst(b2, Receive(1), [Finalize(identity.work), offer, Receive(1)], size);
    DeliveredFirst(b3, Finalize(identity.work), [offer, Receive(1)], size);
    DeliveredFirst(b4, offer, [Receive(1)], size);
    DeliveredFirst(b5, Receive(1), [], size);
  }
}
