/**
 * A connection and the broker together: what reaches the wire of the drafts the broker delivers,
 * when the connection's filter is fed an opening without drafts and then the turns of one run.
 */
module DraftWire {
  import opened DraftEvents
  import opened DraftBroker
  import opened DraftFilter
  import opened DraftPassage
  import opened DraftTurns
  import opened ReplayConnection

  ghost predicate NoDrafts(frames: seq<Frame>) {
    forall i :: 0 <= i < |frames| ==> !frames[i].Live?
  }

  // ----- which events a filter forwards -----

  lemma FilterEventsNext(fed: seq<Frame>, f: Frame, d: Draft)
    ensures EventsOf(fed + [f], d) == EventsOf(fed, d) + EventIn(f, d)
    ensures EventsOf(Filter(fed + [f]).out, d) ==
            EventsOf(Filter(fed).out, d) + if Passes(Filter(fed).active, f) then EventIn(f, d) else []
  {
    EventsNext(fed, f, d);
    FilterNext(fed, f);
    ForwardNext(Filter(fed).out, f, Passes(Filter(fed).active, f), d);
  }

  /** The filter forwards as many events of a draft as it was fed exactly when it forwards each. */
  lemma {:induction false} FilterEvents(fed: seq<Frame>, d: Draft)
    ensures |EventsOf(Filter(fed).out, d)| <= |EventsOf(fed, d)|
    ensures EventsOf(Filter(fed).out, d) == EventsOf(fed, d) <==> PassesAll(fed, d)
    ensures PassesAll(fed, d) <==> |EventsOf(Filter(fed).out, d)| == |EventsOf(fed, d)|
  {
    if fed != [] {
      var front, f := fed[..|fed| - 1], fed[|fed| - 1];
      assert fed == front + [f];
      FilterEvents(front, d);
      FilterEventsNext(front, f, d);
      PassesNext(front, f, d);
    }
  }

  // ----- the opening -----

  lemma {:induction false} OpeningShows(opening: seq<Frame>)
    requires NoDrafts(opening)
    ensures Filter(opening).active == map[]
  {
    if opening != [] {
      OpeningShows(opening[..|opening| - 1]);
    }
  }

  /** After an opening without drafts the filter does what it would do from the start. */
  lemma {:induction false} AfterOpening(opening: seq<Frame>, fed: seq<Frame>, d: Draft)
    requires NoDrafts(opening)
    ensures Filter(opening + fed).active == Filter(fed).active
    ensures EventsOf(opening + fed, d) == EventsOf(fed, d)
    ensures EventsOf(Filter(opening + fed).out, d) == EventsOf(Filter(fed).out, d)
  {
    if fed == [] {
      assert opening + fed == opening;
      OpeningShows(opening);
      OpeningForwards(opening, d);
    } else {
      var front, f := fed[..|fed| - 1], fed[|fed| - 1];
      assert fed == front + [f] && opening + fed == (opening + front) + [f];
      AfterOpening(opening, front, d);
      FilterEventsNext(front, f, d);
      FilterEventsNext(opening + front, f, d);
      FilterNext(front, f);
      FilterNext(opening + front, f);
    }
  }

  lemma {:induction false} OpeningForwards(opening: seq<Frame>, d: Draft)
    requires NoDrafts(opening)
    ensures EventsOf(opening, d) == [] && EventsOf(Filter(opening).out, d) == []
  {
    if opening != [] {
      var front, f := opening[..|opening| - 1], opening[|opening| - 1];
      assert opening == front + [f];
      OpeningForwards(front, d);
      FilterEventsNext(front, f, d);
    }
  }

  // ----- the wire -----

  /** Of each draft the filter forwards, from the opening on, all the turns fed exactly when nothing restarts. */
  lemma TurnsForwarded(world: World, before: seq<Op>, joined: Broker, turns: seq<Turn>, i: nat, opening: seq<Frame>, d: Draft)
    requires Joins(world, before, joined, i) && ProperTurns(world, turns, i) && NoDrafts(opening)
    ensures var fed := PassageOf(joined, turns, i, world.size).fed;
            EventsOf(Filter(opening + fed).out, d) == EventsOf(fed, d) <==>
            forall k: nat :: !RestartsAt(fed, d, world.owner(d).work, k)
  {
    var fed := PassageOf(joined, turns, i, world.size).fed;
    AfterOpening(opening, fed, d);
    FilterEvents(fed, d);
    DraftForwarded(world, before, joined, turns, i, d);
  }

  /** The filter was fed, after the opening, what the turns feed, and that is what the first `n` signals brought. */
  ghost predicate Serves(world: World, before: seq<Op>, joined: Broker, turns: seq<Turn>, i: nat, opening: seq<Frame>,
                         signals: seq<Arrival>, n: nat, fed: seq<Frame>)
  {
    && Joins(world, before, joined, i) && ProperTurns(world, turns, i) && NoDrafts(opening)
    && n <= |signals| && BringsAll([], signals, n, fed)
    && fed == opening + PassageOf(joined, turns, i, world.size).fed
  }

  lemma ServedEvents(world: World, before: seq<Op>, joined: Broker, turns: seq<Turn>, i: nat, opening: seq<Frame>,
                     signals: seq<Arrival>, n: nat, fed: seq<Frame>, d: Draft)
    requires Serves(world, before, joined, turns, i, opening, signals, n, fed)
    ensures BroughtBy(signals, n, d) == EventsOf(PassageOf(joined, turns, i, world.size).fed, d)
  {
    AfterOpening(opening, PassageOf(joined, turns, i, world.size).fed, d);
    assert BringsAllOn([], signals, n, fed, d);
    assert EventsOf([], d) + BroughtBy(signals, n, d) == BroughtBy(signals, n, d);
  }

  /**
   * A connection that is still listening has sent every event of a draft that its signals brought
   * exactly when no start of the draft came while it showed the last episode.
   */
  lemma ListeningComplete(world: World, before: seq<Op>, joined: Broker, turns: seq<Turn>, i: nat, opening: seq<Frame>,
                          signals: seq<Arrival>, fed: seq<Frame>, active: Active, sent: seq<Frame>, d: Draft)
    requires Serves(world, before, joined, turns, i, opening, signals, |signals|, fed) && Filtered(fed, active, sent)
    ensures var run := PassageOf(joined, turns, i, world.size).fed;
            EventsOf(sent, d) == BroughtBy(signals, |signals|, d) <==>
            forall k: nat :: !RestartsAt(run, d, world.owner(d).work, k)
  {
    ServedEvents(world, before, joined, turns, i, opening, signals, |signals|, fed, d);
    TurnsForwarded(world, before, joined, turns, i, opening, d);
    assert FilteredOn(fed, active, sent, d);
  }

  /** A connection that has ended has then sent the first of the events its signals brought, and skipped none. */
  lemma EndedWhole(world: World, before: seq<Op>, joined: Broker, turns: seq<Turn>, i: nat, opening: seq<Frame>,
                   signals: seq<Arrival>, served: nat, fed: seq<Frame>, sent: seq<Frame>, d: Draft)
    requires Serves(world, before, joined, turns, i, opening, signals, served, fed) && CutShort(fed, sent)
    requires var run := PassageOf(joined, turns, i, world.size).fed;
             forall k: nat :: !RestartsAt(run, d, world.owner(d).work, k)
    ensures EventsOf(sent, d) <= BroughtBy(signals, served, d)
  {
    ServedEvents(world, before, joined, turns, i, opening, signals, served, fed, d);
    TurnsForwarded(world, before, joined, turns, i, opening, d);
    assert CutShortOn(fed, sent, d);
  }
}
