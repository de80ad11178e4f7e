/** The per-connection draft filter, and the frames of one connection. */
module DraftFilter {
  import opened Prelude
  import opened DraftEvents
  import PublicJournal

  type DurableEvent = PublicJournal.DurableEvent

  datatype ConnectionDraft = ConnectionDraft(work: Work, invocation: nat, last: nat)
  {
    predicate Matches(e: Event) {
      work == e.identity.work && invocation == e.identity.invocation
    }
  }

  type Active = map<Draft, ConnectionDraft>

  /** Whether a draft event is forwarded, given the drafts open on the connection. */
  predicate Accepts(active: Active, e: Event) {
    var d := e.identity.draft;
    match e.payload
    case Started => d !in active
    case Delta(sequence, _, _) => d in active && active[d].Matches(e) && active[d].last < sequence
    case Abandoned(_) => d in active && active[d].Matches(e)
  }

  function Accepted(active: Active, e: Event): Active {
    var d := e.identity.draft;
    match e.payload
    case Started => if d in active then active else active[d := ConnectionDraft(e.identity.work, e.identity.invocation, 0)]
    case Delta(sequence, _, _) => if Accepts(active, e) then active[d := active[d].(last := sequence)] else active
    case Abandoned(_) => active - {d}
  }

  /** The last word on a work closes its drafts. */
  function Reconciled(active: Active, e: DurableEvent): Active {
    match e.Finalizes()
    case None => active
    case Some(work) => map d | d in active && active[d].work != work :: active[d]
  }

  class ConnectionDraftState {
    var active: Active

    constructor ()
      ensures active == map[]
    {
      active := map[];
    }

    method Accept(e: Event) returns (forward: bool)
      modifies this
      ensures forward == Accepts(old(active), e) && active == Accepted(old(active), e)
    {
      var d := e.identity.draft;
      if e.payload.Started? {
        if d in active {
          return false;
        }
        active := active[d := ConnectionDraft(e.identity.work, e.identity.invocation, 0)];
        return true;
      } else if e.payload.Delta? {
        if d !in active {
          return false;
        }
        var entry := active[d];
        if entry.work != e.identity.work || entry.invocation != e.identity.invocation
           || e.payload.sequence <= entry.last {
          return false;
        }
        active := active[d := entry.(last := e.payload.sequence)];
        return true;
      } else {
        forward := d in active && active[d].Matches(e);
        active := active - {d};
      }
    }

    /** A committed message and the end of a work, however it ends, are the last word on the work. */
    method ReconcileDurable(e: DurableEvent)
      modifies this
      ensures active == Reconciled(old(active), e)
      ensures var last := {PublicJournal.MessageCommitted, PublicJournal.WorkCompleted, PublicJournal.WorkCancelled,
                           PublicJournal.WorkFailed, PublicJournal.WorkInterrupted};
              && (forall d :: d in active <==> d in old(active) && !(e.kind in last && e.work == Some(old(active)[d].work)))
              && (forall d :: d in active ==> active[d] == old(active)[d])
    {
      if e.Finalizes().Some? {
        var work := e.Finalizes().value;
        active := map d | d in active && active[d].work != work :: active[d];
      }
    }
  }

  // ----- the wire -----

  datatype Frame = Durable(event: DurableEvent) | Sync(cursor: nat) | Live(draft: Event)

  /** Where one draft stands on the wire: closed, open, or sent something no client could place. */
  datatype Wire = Quiet | Showing(entry: ConnectionDraft) | Garbled

  function NextWire(x: Wire, f: Frame, d: Draft): Wire {
    match f
    case Sync(_) => x
    case Durable(e) => if x.Showing? && e.Finalizes() == Some(x.entry.work) then Quiet else x
    case Live(e) =>
      if !e.Of(d) || x == Garbled then x
      else
        match e.payload
        case Started => if x == Quiet then Showing(ConnectionDraft(e.identity.work, e.identity.invocation, 0)) else Garbled
        case Delta(sequence, _, _) =>
          if x.Showing? && x.entry.Matches(e) && x.entry.last < sequence then Showing(x.entry.(last := sequence)) else Garbled
        case Abandoned(_) => if x.Showing? && x.entry.Matches(e) then Quiet else Garbled
  }

  function WireOf(sent: seq<Frame>, d: Draft): Wire {
    if sent == [] then Quiet else NextWire(WireOf(sent[..|sent| - 1], d), sent[|sent| - 1], d)
  }

  lemma WireAppend(sent: seq<Frame>, f: Frame, d: Draft)
    ensures WireOf(sent + [f], d) == NextWire(WireOf(sent, d), f, d)
  {
  }

  ghost predicate Owned(world: World, e: Event) {
    e.identity == world.owner(e.identity.draft)
  }

  /** What the filter remembers of one draft is where the wire left it. */
  ghost predicate AgreesOn(world: World, active: Active, sent: seq<Frame>, d: Draft) {
    && WireOf(sent, d) == (if d in active then Showing(active[d]) else Quiet)
    && (d in active ==> active[d].work == world.owner(d).work && active[d].invocation == world.owner(d).invocation)
  }

  ghost predicate Agrees(world: World, active: Active, sent: seq<Frame>) {
    forall d :: AgreesOn(world, active, sent, d)
  }

  lemma AcceptAgreesOn(world: World, active: Active, sent: seq<Frame>, e: Event, d: Draft)
    requires AgreesOn(world, active, sent, d) && AgreesOn(world, active, sent, e.identity.draft) && Owned(world, e)
    ensures AgreesOn(world, Accepted(active, e), if Accepts(active, e) then sent + [Live(e)] else sent, d)
  {
    WireAppend(sent, Live(e), d);
  }

  lemma AcceptAgrees(world: World, active: Active, sent: seq<Frame>, e: Event)
    requires Agrees(world, active, sent) && Owned(world, e)
    ensures Agrees(world, Accepted(active, e), if Accepts(active, e) then sent + [Live(e)] else sent)
  {
    var now, after := Accepted(active, e), if Accepts(active, e) then sent + [Live(e)] else sent;
    forall d
      ensures AgreesOn(world, now, after, d)
    {
      assert AgreesOn(world, active, sent, d) && AgreesOn(world, active, sent, e.identity.draft);
      AcceptAgreesOn(world, active, sent, e, d);
    }
  }

  lemma ReconcileAgrees(world: World, active: Active, sent: seq<Frame>, e: DurableEvent)
    requires Agrees(world, active, sent)
    ensures Agrees(world, Reconciled(active, e), sent + [Durable(e)])
  {
    forall d
      ensures AgreesOn(world, Reconciled(active, e), sent + [Durable(e)], d)
    {
      assert AgreesOn(world, active, sent, d);
      WireAppend(sent, Durable(e), d);
    }
  }

  lemma SyncAgrees(world: World, active: Active, sent: seq<Frame>, cursor: nat)
    requires Agrees(world, active, sent)
    ensures Agrees(world, active, sent + [Sync(cursor)])
  {
    forall d
      ensures AgreesOn(world, active, sent + [Sync(cursor)], d)
    {
      assert AgreesOn(world, active, sent, d);
      WireAppend(sent, Sync(cursor), d);
    }
  }

  /** No durable or sync frame garbles a draft. */
  lemma {:induction false} WireGrows(sent: seq<Frame>, more: seq<Frame>, d: Draft)
    requires WireOf(sent, d) != Garbled && forall i :: 0 <= i < |more| ==> !more[i].Live?
    ensures WireOf(sent + more, d) != Garbled
  {
    if more == [] {
      assert sent + more == sent;
    } else {
      var k := |more| - 1;
      WireGrows(sent, more[..k], d);
      WireAppend(sent + more[..k], more[k], d);
      assert sent + more == sent + more[..k] + [more[k]];
    }
  }

  /** Every draft can be placed. */
  ghost predicate Legible(sent: seq<Frame>) {
    forall d :: WireOf(sent, d) != Garbled
  }

  lemma AgreesLegible(world: World, active: Active, sent: seq<Frame>)
    requires Agrees(world, active, sent)
    ensures Legible(sent)
  {
    forall d
      ensures WireOf(sent, d) != Garbled
    {
      assert AgreesOn(world, active, sent, d);
    }
  }

  lemma LegibleGrows(sent: seq<Frame>, more: seq<Frame>)
    requires Legible(sent) && forall i :: 0 <= i < |more| ==> !more[i].Live?
    ensures Legible(sent + more)
  {
    forall d
      ensures WireOf(sent + more, d) != Garbled
    {
      WireGrows(sent, more, d);
    }
  }

  // ----- the filter as a whole -----

  /** What a filter is fed: draft events, and durable frames, which always pass. */
  predicate Passes(active: Active, f: Frame) {
    f.Live? ==> Accepts(active, f.draft)
  }

  function Track(active: Active, f: Frame): Active {
    match f
    case Live(e) => Accepted(active, e)
    case Durable(e) => Reconciled(active, e)
    case Sync(_) => active
  }

  datatype Filtering = Filtering(active: Active, out: seq<Frame>)

  function Filter(fed: seq<Frame>): Filtering {
    if fed == [] then Filtering(map[], [])
    else
      var k := |fed| - 1;
      var was := Filter(fed[..k]);
      Filtering(Track(was.active, fed[k]), if Passes(was.active, fed[k]) then was.out + [fed[k]] else was.out)
  }

  /** The events of one draft among some frames. */
  function EventsOf(frames: seq<Frame>, d: Draft): seq<Event> {
    if frames == [] then []
    else EventsOf(frames[..|frames| - 1], d) + EventIn(frames[|frames| - 1], d)
  }

  function EventIn(f: Frame, d: Draft): seq<Event> {
    if f.Live? && f.draft.Of(d) then [f.draft] else []
  }

  lemma EventsNext(frames: seq<Frame>, f: Frame, d: Draft)
    ensures EventsOf(frames + [f], d) == EventsOf(frames, d) + EventIn(f, d)
  {
    assert (frames + [f])[..|frames|] == frames;
  }

  lemma {:induction false} EventsPlain(frames: seq<Frame>, more: seq<Frame>, d: Draft)
    requires forall i :: 0 <= i < |more| ==> !more[i].Live?
    ensures EventsOf(frames + more, d) == EventsOf(frames, d)
  {
    if more == [] {
      assert frames + more == frames;
    } else {
      var k := |more| - 1;
      EventsPlain(frames, more[..k], d);
      EventsNext(frames + more[..k], more[k], d);
      assert frames + more == frames + more[..k] + [more[k]];
    }
  }

  ghost predicate AllOwned(world: World, fed: seq<Frame>) {
    forall i :: 0 <= i < |fed| && fed[i].Live? ==> Owned(world, fed[i].draft)
  }

  lemma TrackAgrees(world: World, active: Active, sent: seq<Frame>, f: Frame)
    requires Agrees(world, active, sent) && (f.Live? ==> Owned(world, f.draft))
    ensures Agrees(world, Track(active, f), if Passes(active, f) then sent + [f] else sent)
  {
    match f
    case Live(e) => AcceptAgrees(world, active, sent, e);
    case Durable(e) => ReconcileAgrees(world, active, sent, e);
    case Sync(cursor) => SyncAgrees(world, active, sent, cursor);
  }

  /** Whatever is fed, what comes out is well formed on the wire for every draft. */
  lemma {:induction false} FilterSound(world: World, fed: seq<Frame>)
    requires AllOwned(world, fed)
    ensures Agrees(world, Filter(fed).active, Filter(fed).out)
  {
    if fed == [] {
      assert forall d :: AgreesOn(world, map[], [], d);
    } else {
      var k := |fed| - 1;
      FilterSound(world, fed[..k]);
      TrackAgrees(world, Filter(fed[..k]).active, Filter(fed[..k]).out, fed[k]);
    }
  }

  /** A draft the filter stands with passes exactly when the wire can place it. */
  lemma PassesWire(world: World, active: Active, sent: seq<Frame>, f: Frame, d: Draft)
    requires Agrees(world, active, sent) && (f.Live? ==> f.draft.Of(d))
    ensures Passes(active, f) <==> NextWire(WireOf(sent, d), f, d) != Garbled
  {
    assert AgreesOn(world, active, sent, d);
  }

  /** The filter forwards everything exactly when what it is fed is well formed for every draft. */
  lemma {:induction false} FilterTransparent(world: World, fed: seq<Frame>)
    requires AllOwned(world, fed)
    ensures Filter(fed).out == fed <==> Legible(fed)
  {
    FilterSound(world, fed);
    AgreesLegible(world, Filter(fed).active, Filter(fed).out);
    if fed != [] && Legible(fed) {
      var k := |fed| - 1;
      var was, f := Filter(fed[..k]), fed[k];
      forall d
        ensures WireOf(fed[..k], d) != Garbled
      {
        assert WireOf(fed, d) != Garbled;
      }
      FilterSound(world, fed[..k]);
      FilterTransparent(world, fed[..k]);
      var d := if f.Live? then f.draft.identity.draft else 0;
      assert WireOf(fed, d) != Garbled;
      PassesWire(world, was.active, was.out, f, d);
      assert fed == fed[..k] + [f];
    }
  }

  /** Filtering a second time changes nothing. */
  lemma FilterIdempotent(world: World, fed: seq<Frame>)
    requires AllOwned(world, fed)
    ensures Filter(Filter(fed).out).out == Filter(fed).out
  {
    FilterSound(world, fed);
    FilterOwned(world, fed);
    AgreesLegible(world, Filter(fed).active, Filter(fed).out);
    FilterTransparent(world, Filter(fed).out);
  }

  lemma {:induction false} FilterOwned(world: World, fed: seq<Frame>)
    requires AllOwned(world, fed)
    ensures AllOwned(world, Filter(fed).out)
  {
    if fed != [] {
      var k := |fed| - 1;
      FilterOwned(world, fed[..k]);
      assert Filter(fed).out == Filter(fed[..k]).out || Filter(fed).out == Filter(fed[..k]).out + [fed[k]];
    }
  }

  /** Two episodes of a draft, the second starting while the first is still open. */
  function Restart(identity: Identity, kind: Kind, text: Bytes): seq<Event> {
    [Event(identity, Started), Event(identity, Delta(1, kind, text)), Event(identity, Started)]
  }

  lemma RestartEpisodes(identity: Identity, kind: Kind, text: Bytes)
    ensures Scan(Shut, Restart(identity, kind, text), identity.draft) == Open(0)
  {
    var a, b := Event(identity, Started), Event(identity, Delta(1, kind, text));
    assert [a, b, a][1..] == [b, a] && [b, a][1..] == [a] && [a][1..] == [];
    assert Scan(Open(1), [a], identity.draft) == Open(0);
  }

  lemma FilterNext(fed: seq<Frame>, f: Frame)
    ensures Filter(fed + [f]).active == Track(Filter(fed).active, f)
    ensures Filter(fed + [f]).out == Filter(fed).out + if Passes(Filter(fed).active, f) then [f] else []
  {
    assert (fed + [f])[..|fed|] == fed;
    assert Filter(fed).out + [] == Filter(fed).out;
  }

  /** An episode that restarts while the connection still shows the last one loses its start. */
  lemma RestartDropped(identity: Identity, kind: Kind, text: Bytes)
    ensures var s := Restart(identity, kind, text);
            Filter([Live(s[0])] + [Live(s[1])] + [Live(s[2])]).out == [Live(s[0]), Live(s[1])]
  {
    var s := Restart(identity, kind, text);
    FilterNext([], Live(s[0]));
    assert [] + [Live(s[0])] == [Live(s[0])];
    FilterNext([Live(s[0])], Live(s[1]));
    FilterNext([Live(s[0])] + [Live(s[1])], Live(s[2]));
  }

  // ----- a connection and its filter -----

  /** Two connections show the same of one draft. */
  predicate AlikeAt(x: Active, y: Active, d: Draft) {
    (d in x <==> d in y) && (d in x ==> x[d] == y[d])
  }

  lemma TrackAlike(x: Active, y: Active, f: Frame, d: Draft)
    requires AlikeAt(x, y, d) && (f.Live? ==> AlikeAt(x, y, f.draft.identity.draft))
    ensures AlikeAt(Track(x, f), Track(y, f), d) && (Passes(x, f) <==> Passes(y, f))
  {
  }

  /** One draft is on the connection, and was sent, as the filter that was fed `fed` leaves and forwards it. */
  ghost predicate FilteredOn(fed: seq<Frame>, active: Active, sent: seq<Frame>, d: Draft) {
    AlikeAt(active, Filter(fed).active, d) && EventsOf(sent, d) == EventsOf(Filter(fed).out, d)
  }

  ghost predicate Filtered(fed: seq<Frame>, active: Active, sent: seq<Frame>) {
    forall d :: FilteredOn(fed, active, sent, d)
  }

  /** What was sent of each draft is the first of what the filter forwards. */
  ghost predicate CutShort(fed: seq<Frame>, sent: seq<Frame>) {
    forall d :: CutShortOn(fed, sent, d)
  }

  ghost predicate CutShortOn(fed: seq<Frame>, sent: seq<Frame>, d: Draft) {
    EventsOf(sent, d) <= EventsOf(Filter(fed).out, d)
  }

  lemma FilteredShort(fed: seq<Frame>, active: Active, sent: seq<Frame>)
    requires Filtered(fed, active, sent)
    ensures CutShort(fed, sent)
  {
    forall d
      ensures CutShortOn(fed, sent, d)
    {
      assert FilteredOn(fed, active, sent, d);
    }
  }

  lemma FilteredNextOn(fed: seq<Frame>, active: Active, sent: seq<Frame>, f: Frame, d: Draft)
    requires FilteredOn(fed, active, sent, d) && (f.Live? ==> FilteredOn(fed, active, sent, f.draft.identity.draft))
    ensures AlikeAt(Track(active, f), Filter(fed + [f]).active, d)
    ensures EventsOf(Filter(fed + [f]).out, d) == EventsOf(sent, d) + if Passes(active, f) then EventIn(f, d) else []
  {
    var was := Filter(fed);
    TrackAlike(active, was.active, f, d);
    FilterNext(fed, f);
    ForwardNext(was.out, f, Passes(active, f), d);
  }

  lemma ForwardNext(out: seq<Frame>, f: Frame, passes: bool, d: Draft)
    ensures EventsOf(out + if passes then [f] else [], d) == EventsOf(out, d) + if passes then EventIn(f, d) else []
  {
    if passes {
      EventsNext(out, f, d);
    } else {
      assert out + [] == out;
    }
  }

  /** Feeding a frame that is forwarded and sent, or not forwarded, or that is no draft. */
  lemma FilteredNext(fed: seq<Frame>, active: Active, sent: seq<Frame>, f: Frame, now: seq<Frame>)
    requires Filtered(fed, active, sent)
    requires now == (if Passes(active, f) then sent + [f] else sent) || (now == sent && !f.Live?)
    ensures Filtered(fed + [f], Track(active, f), now)
  {
    forall d
      ensures FilteredOn(fed + [f], Track(active, f), now, d)
    {
      assert FilteredOn(fed, active, sent, d);
      if f.Live? {
        assert FilteredOn(fed, active, sent, f.draft.identity.draft);
      }
      FilteredNextOn(fed, active, sent, f, d);
      EventsNext(sent, f, d);
    }
  }

  /** A draft that is forwarded and may not have been sent. */
  lemma FilteredLost(fed: seq<Frame>, active: Active, sent: seq<Frame>, e: Event)
    requires Filtered(fed, active, sent)
    ensures CutShort(fed + [Live(e)], sent)
  {
    forall d
      ensures CutShortOn(fed + [Live(e)], sent, d)
    {
      assert FilteredOn(fed, active, sent, d) && FilteredOn(fed, active, sent, e.identity.draft);
      FilteredNextOn(fed, active, sent, Live(e), d);
    }
  }

  /** Frames that are no drafts change nothing. */
  lemma FilteredPlain(fed: seq<Frame>, active: Active, sent: seq<Frame>, more: seq<Frame>)
    requires Filtered(fed, active, sent) && forall i :: 0 <= i < |more| ==> !more[i].Live?
    ensures Filtered(fed, active, sent + more)
  {
    forall d
      ensures FilteredOn(fed, active, sent + more, d)
    {
      assert FilteredOn(fed, active, sent, d);
      EventsPlain(sent, more, d);
    }
  }

  /** The same events of every draft were fed. */
  ghost predicate SameDrafts(was: seq<Frame>, fed: seq<Frame>) {
    forall d :: SameOn(was, fed, d)
  }

  ghost predicate SameOn(was: seq<Frame>, fed: seq<Frame>, d: Draft) {
    EventsOf(fed, d) == EventsOf(was, d)
  }

  lemma SameTwice(x: seq<Frame>, y: seq<Frame>, z: seq<Frame>)
    requires SameDrafts(x, y) && SameDrafts(y, z)
    ensures SameDrafts(x, z)
  {
    forall d
      ensures SameOn(x, z, d)
    {
      assert SameOn(x, y, d) && SameOn(y, z, d);
    }
  }
}
