/** The fate of every event a subscriber is told of, and what its reader sees. */
module DraftAccounts {
  import opened DraftEvents
  import opened DraftReadings
  import opened DraftStreams
  import opened DraftFidelity

  // ----- sources -----

  lemma SourcesConcat(x: seq<Item>, y: seq<Item>)
    ensures Sources(x + y) == Sources(x) + Sources(y)
  {
  }

  lemma SourcesOne(x: Item, n: nat)
    ensures n in Sources([x]) <==> n in x.sources
  {
  }

  lemma SourcesHas(items: seq<Item>, x: Item, n: nat)
    requires x in items && n in x.sources
    ensures n in Sources(items)
  {
  }

  /** No event is in two frames. */
  lemma SourceUnique(items: seq<Item>, i: nat, j: nat, n: nat)
    requires Ordered(items) && forall x :: x in items ==> Increasing(x.sources)
    requires i < |items| && j < |items| && n in items[i].sources && n in items[j].sources
    ensures i == j
  {
  }

  lemma SourcesDisjoint(x: seq<Item>, y: seq<Item>)
    requires Ordered(x + y) && forall a :: a in x + y ==> Increasing(a.sources)
    ensures Sources(x) !! Sources(y)
  {
    forall n | n in Sources(x)
      ensures n !in Sources(y)
    {
      var a :| a in x && n in a.sources;
      var i :| 0 <= i < |x| && x[i] == a;
      if n in Sources(y) {
        var b :| b in y && n in b.sources;
        var j :| 0 <= j < |y| && y[j] == b;
        assert (x + y)[i] == a && (x + y)[|x| + j] == b;
        SourceUnique(x + y, i, |x| + j, n);
      }
    }
  }

  // ----- accounts -----

  /** Whether the next event belongs to an episode whose start the subscriber was told of. */
  predicate Due(log: seq<Event>, e: Event) {
    e.payload.Started? || Begun(log, e.identity.draft)
  }

  function DueIn(log: seq<Event>): set<nat> {
    if log == [] then {}
    else
      var front, e := log[..|log| - 1], log[|log| - 1];
      DueIn(front) + if Due(front, e) then {|front|} else {}
  }

  lemma DueAppend(log: seq<Event>, e: Event)
    ensures DueIn(log + [e]) == DueIn(log) + if Due(log, e) then {|log|} else {}
  {
  }

  /** Only deltas are lost to pressure, and only events of the finalized work to a finalization. */
  ghost predicate Excused(log: seq<Event>, n: nat, cause: Cause) {
    n < |log| && (cause == Pressure ==> !log[n].Structural()) && (cause.Finalization? ==> log[n].identity.work == cause.work)
  }

  /**
   * Every event of an episode begun while the subscriber listened is in exactly one frame or was
   * lost for a stated cause, and nothing else is in a frame.
   */
  ghost predicate Accounted(t: Tape) {
    && DueIn(t.log) == Sources(t.items) + t.lost.Keys
    && Sources(t.items) !! t.lost.Keys
    && forall n :: n in t.lost ==> Excused(t.log, n, t.lost[n])
  }

  lemma {:induction false} DueBound(log: seq<Event>)
    ensures forall n :: n in DueIn(log) ==> n < |log|
  {
    if log != [] {
      DueBound(log[..|log| - 1]);
    }
  }

  /** A logged event that is in a frame at once. */
  lemma AccountedKept(t: Tape, items: seq<Item>, e: Event)
    requires Accounted(t) && Due(t.log, e) && Sources(items) == Sources(t.items) + {|t.log|}
    ensures Accounted(Tape(items, t.log + [e], t.lost))
  {
  }

  lemma AccountedLost(t: Tape, e: Event, cause: Cause)
    requires Accounted(t) && Due(t.log, e) && Excused(t.log + [e], |t.log|, cause)
    ensures Accounted(Tape(t.items, t.log + [e], t.lost[|t.log| := cause]))
  {
    DueAppend(t.log, e);
    DueBound(t.log);
    assert t.lost[|t.log| := cause].Keys == t.lost.Keys + {|t.log|};
  }

  /** Frames given up for a cause that can excuse them. */
  lemma AccountedCut(t: Tape, items: seq<Item>, gone: set<nat>, cause: Cause)
    requires Accounted(t) && Sources(t.items) == Sources(items) + gone && Sources(items) !! gone
    requires forall n :: n in gone ==> Excused(t.log, n, cause)
    ensures Accounted(Tape(items, t.log, Lose(t.lost, gone, cause)))
  {
  }

  lemma AccountedSkip(t: Tape, e: Event)
    requires Accounted(t) && !e.payload.Started?
    ensures Accounted(Skip(t, e))
  {
    if Begun(t.log, e.identity.draft) {
      AccountedLost(t, e, Overloading);
    } else {
      DueAppend(t.log, e);
    }
  }

  lemma MiddleSources(x: seq<Item>, y: seq<Item>, z: seq<Item>)
    requires Ordered(x + (y + z)) && forall a :: a in x + (y + z) ==> Increasing(a.sources)
    ensures Sources(x + (y + z)) == Sources(x + z) + Sources(y)
    ensures Sources(x + z) !! Sources(y)
  {
    assert forall a :: a in y + z ==> a in x + (y + z);
    OrderedSplit(x, y + z);
    SourcesDisjoint(x, y + z);
    SourcesDisjoint(y, z);
    SourcesConcat(x, y + z);
    SourcesConcat(y, z);
    SourcesConcat(x, z);
  }

  lemma EvictSources(items: seq<Item>, log: seq<Event>, k: nat)
    requires k < |items| && Ordered(items) && forall x :: x in items ==> Made(log, x)
    ensures Sources(items) == Sources(items[..k] + items[k + 1..]) + Sources([items[k]])
    ensures Sources(items[..k] + items[k + 1..]) !! Sources([items[k]])
  {
    assert items[..k] + ([items[k]] + items[k + 1..]) == items;
    assert forall a :: a in items ==> Made(log, a) && Increasing(a.sources);
    MiddleSources(items[..k], [items[k]], items[k + 1..]);
  }

  lemma DeltaSources(log: seq<Event>, x: Item, n: nat)
    requires Made(log, x) && n in x.sources
    ensures n < |log| && log[n].identity == x.event.identity && log[n].Structural() == x.event.Structural()
  {
  }

  /** A tape without the frame at `k`. */
  ghost function Without(t: Tape, k: nat): Tape
    requires k < |t.items|
  {
    Tape(t.items[..k] + t.items[k + 1..], t.log, Lose(t.lost, Sources([t.items[k]]), Pressure))
  }

  lemma EvictPuts(t: Tape, from: nat, e: Event, k: nat)
    requires Fits(t.items, from, e, Evict(k))
    ensures var cut := Without(t, from + k);
            Put(t, from, e, Evict(k)) == Tape(cut.items + [Item(e, [|t.log|])], t.log + [e], cut.lost)
  {
  }

  lemma AccountedEvict(world: World, t: Tape, k: nat)
    requires Accounted(t) && Traced(world, t.items, t.log) && k < |t.items| && !t.items[k].event.Structural()
    ensures Accounted(Without(t, k))
  {
    var x := t.items[k];
    EvictSources(t.items, t.log, k);
    forall n | n in Sources([x])
      ensures Excused(t.log, n, Pressure)
    {
      SourcesOne(x, n);
      DeltaSources(t.log, x, n);
    }
    AccountedCut(t, t.items[..k] + t.items[k + 1..], Sources([x]), Pressure);
  }

  lemma NewSource(items: seq<Item>, e: Event, n: nat)
    ensures Sources(items + [Item(e, [n])]) == Sources(items) + {n}
  {
    SourcesConcat(items, [Item(e, [n])]);
    forall m
      ensures m in Sources([Item(e, [n])]) <==> m == n
    {
      SourcesOne(Item(e, [n]), m);
    }
  }

  lemma MergedSource(items: seq<Item>, e: Event, n: nat)
    requires items != []
    ensures Sources(items[..|items| - 1] + [Item(e, items[|items| - 1].sources + [n])]) == Sources(items) + {n}
  {
    var front, last := items[..|items| - 1], items[|items| - 1];
    var merged := Item(e, last.sources + [n]);
    assert items == front + [last];
    SourcesConcat(front, [last]);
    SourcesConcat(front, [merged]);
    forall m
      ensures m in Sources([merged]) <==> m in Sources([last]) || m == n
    {
      SourcesOne(merged, m);
      SourcesOne(last, m);
    }
  }

  lemma AccountedAppend(t: Tape, e: Event)
    requires Accounted(t) && Due(t.log, e)
    ensures Accounted(Tape(t.items + [Item(e, [|t.log|])], t.log + [e], t.lost))
  {
    NewSource(t.items, e, |t.log|);
    AccountedKept(t, t.items + [Item(e, [|t.log|])], e);
  }

  lemma AccountedMerge(t: Tape, from: nat, e: Event)
    requires Accounted(t) && Due(t.log, e) && Fits(t.items, from, e, Merge)
    ensures Accounted(Put(t, from, e, Merge))
  {
    MergedSource(t.items, Coalesce(t.items[|t.items| - 1].event, e), |t.log|);
    AccountedKept(t, PlaceItem(t.items, from, e, |t.log|, Merge), e);
  }

  lemma AccountedReplace(world: World, t: Tape, from: nat, e: Event, k: nat)
    requires Accounted(t) && Traced(world, t.items, t.log) && Due(t.log, e) && Fits(t.items, from, e, Evict(k))
    ensures Accounted(Put(t, from, e, Evict(k)))
  {
    AccountedEvict(world, t, from + k);
    AccountedAppend(Without(t, from + k), e);
    EvictPuts(t, from, e, k);
  }

  lemma AccountedPut(world: World, t: Tape, from: nat, e: Event, p: Placement)
    requires Accounted(t) && Traced(world, t.items, t.log) && Fits(t.items, from, e, p) && Due(t.log, e)
    requires p.Drop? ==> !e.Structural()
    ensures Accounted(Put(t, from, e, p))
  {
    match p
    case Append => AccountedAppend(t, e);
    case Evict(k) => AccountedReplace(world, t, from, e, k);
    case Merge => AccountedMerge(t, from, e);
    case Drop => AccountedLost(t, e, Pressure);
    case Overload => AccountedLost(t, e, Overloading);
  }

  lemma AccountedRetain(world: World, t: Tape, from: nat, work: Work)
    requires Accounted(t) && Traced(world, t.items, t.log) && from <= |t.items|
    ensures Accounted(Cut(t, t.items[..from] + RetainItems(t.items[from..], work), Finalization(work)))
  {
    var q, rest := t.items[from..], RetainItems(t.items[from..], work);
    var items := t.items[..from] + rest;
    RetainErases(q, work);
    assert t.items == t.items[..from] + q;
    forall n | n in Sources(t.items) - Sources(items)
      ensures Excused(t.log, n, Finalization(work))
    {
      var x :| x in t.items && n in x.sources;
      assert x in items ==> n in Sources(items);
      assert Made(t.log, x);
      DeltaSources(t.log, x, n);
    }
    assert Sources(items) <= Sources(t.items);
    AccountedCut(t, items, Sources(t.items) - Sources(items), Finalization(work));
  }

  lemma AccountedClear(t: Tape, from: nat)
    requires Accounted(t) && from <= |t.items|
    ensures Accounted(Cut(t, t.items[..from], Closing))
  {
    DueBound(t.log);
    assert Sources(t.items[..from]) <= Sources(t.items);
    AccountedCut(t, t.items[..from], Sources(t.items) - Sources(t.items[..from]), Closing);
  }

  // ----- readings -----

  /** A reader of `d` sees its structural events, and its deltas if it reads text. */
  predicate Visible(e: Event, d: Draft, text: bool) {
    e.Of(d) && (text || e.Structural())
  }

  /** Nothing the reader of `d` sees was lost. */
  ghost predicate Intact(t: Tape, d: Draft, text: bool) {
    forall n :: n in t.lost && n < |t.log| ==> !Visible(t.log[n], d, text)
  }

  /** A reader from whom nothing was lost sees exactly the episodes begun while it listened. */
  ghost predicate Reads(t: Tape, d: Draft, text: bool) {
    Intact(t, d, text) ==> Reading(Events(t.items), d, text) == Reading(Owed(t.log, d), d, text)
  }

  lemma OwedAppend(log: seq<Event>, e: Event, d: Draft, text: bool)
    ensures Reading(Owed(log + [e], d), d, text) ==
            Reading(Owed(log, d), d, text) + if Due(log, e) then EventAtoms(e, d, text) else []
  {
    LogAppend(log, e, d);
    ReadingAppend(Owed(log, d), e, d, text);
  }

  lemma IntactBefore(t: Tape, items: seq<Item>, e: Event, lost: map<nat, Cause>, d: Draft, text: bool)
    requires t.lost.Keys <= lost.Keys && Intact(Tape(items, t.log + [e], lost), d, text)
    ensures Intact(t, d, text)
    ensures |t.log| in lost ==> !Visible(e, d, text)
  {
  }

  lemma ReadsKept(t: Tape, items: seq<Item>, e: Event, d: Draft, text: bool)
    requires Reads(t, d, text) && Due(t.log, e)
    requires Reading(Events(items), d, text) == Reading(Events(t.items) + [e], d, text)
    ensures Reads(Tape(items, t.log + [e], t.lost), d, text)
  {
    if Intact(Tape(items, t.log + [e], t.lost), d, text) {
      IntactBefore(t, items, e, t.lost, d, text);
      OwedAppend(t.log, e, d, text);
      ReadingAppend(Events(t.items), e, d, text);
    }
  }

  lemma ReadsLost(t: Tape, e: Event, lost: map<nat, Cause>, d: Draft, text: bool)
    requires Reads(t, d, text) && t.lost.Keys <= lost.Keys
    requires Due(t.log, e) ==> |t.log| in lost
    ensures Reads(Tape(t.items, t.log + [e], lost), d, text)
  {
    if Intact(Tape(t.items, t.log + [e], lost), d, text) {
      IntactBefore(t, t.items, e, lost, d, text);
      OwedAppend(t.log, e, d, text);
    }
  }

  /** A frame given up is unseen by an intact reader. */
  lemma LostSilent(t: Tape, x: Item, d: Draft, text: bool)
    requires Made(t.log, x) && x.sources[0] in t.lost && Intact(t, d, text)
    ensures EventAtoms(x.event, d, text) == []
  {
  }

  lemma ReadsEvict(world: World, t: Tape, k: nat, d: Draft, text: bool)
    requires Reads(t, d, text) && Traced(world, t.items, t.log) && k < |t.items|
    ensures Reads(Without(t, k), d, text)
  {
    var x := t.items[k];
    var cut := Without(t, k);
    if Intact(cut, d, text) {
      assert Made(t.log, x);
      SourcesOne(x, x.sources[0]);
      LostSilent(cut, x, d, text);
      ReadingEvict(Events(t.items), k, d, text);
      EventsEvict(t.items, k);
    }
  }

  /** Frames kept from the queue; the rest are lost. */
  lemma ReadsCut(world: World, t: Tape, from: nat, rest: seq<Item>, cause: Cause, d: Draft, text: bool)
    requires Reads(t, d, text) && Traced(world, t.items, t.log) && from <= |t.items|
    requires forall x :: x in rest ==> x in t.items[from..]
    requires (forall x :: x in t.items[from..] && x !in rest ==> EventAtoms(x.event, d, text) == []) ==>
               Reading(Events(rest), d, text) == Reading(Events(t.items[from..]), d, text)
    ensures Reads(Cut(t, t.items[..from] + rest, cause), d, text)
  {
    var cut := Cut(t, t.items[..from] + rest, cause);
    if Intact(cut, d, text) {
      forall i | from <= i < |t.items| && t.items[i] !in rest
        ensures EventAtoms(t.items[i].event, d, text) == []
      {
        var x := t.items[i];
        assert Made(t.log, x);
        CutLoses(world, t, from, rest, i);
        LostSilent(cut, x, d, text);
      }
      assert forall x :: x in t.items[from..] && x !in rest ==> EventAtoms(x.event, d, text) == [];
      CutReading(t.items, from, rest, d, text);
    }
  }

  lemma CutReading(items: seq<Item>, from: nat, rest: seq<Item>, d: Draft, text: bool)
    requires from <= |items| && Reading(Events(rest), d, text) == Reading(Events(items[from..]), d, text)
    ensures Reading(Events(items[..from] + rest), d, text) == Reading(Events(items), d, text)
  {
    assert items == items[..from] + items[from..];
    EventsConcat(items[..from], items[from..]);
    EventsConcat(items[..from], rest);
    ReadingConcat(Events(items[..from]), Events(items[from..]), d, text);
    ReadingConcat(Events(items[..from]), Events(rest), d, text);
  }

  lemma CutLoses(world: World, t: Tape, from: nat, rest: seq<Item>, i: nat)
    requires Traced(world, t.items, t.log) && from <= i < |t.items| && t.items[i] !in rest
    requires forall x :: x in rest ==> x in t.items[from..]
    ensures t.items[i].sources != []
    ensures t.items[i].sources[0] in Sources(t.items) - Sources(t.items[..from] + rest)
  {
    var x := t.items[i];
    assert Made(t.log, x);
    var n := x.sources[0];
    SourcesHas(t.items, x, n);
    assert forall y :: y in t.items ==> Made(t.log, y) && Increasing(y.sources);
    if n in Sources(t.items[..from] + rest) {
      var y :| y in t.items[..from] + rest && n in y.sources;
      assert y in t.items[..from] || y in t.items[from..];
      if y in rest {
        var j :| from <= j < |t.items| && t.items[j] == y;
        SourceUnique(t.items, i, j, n);
      } else {
        var j :| 0 <= j < from && t.items[j] == y;
        SourceUnique(t.items, i, j, n);
      }
    }
  }

  lemma ReadsAppend(t: Tape, e: Event, d: Draft, text: bool)
    requires Reads(t, d, text) && Due(t.log, e)
    ensures Reads(Tape(t.items + [Item(e, [|t.log|])], t.log + [e], t.lost), d, text)
  {
    EventsConcat(t.items, [Item(e, [|t.log|])]);
    assert Events([Item(e, [|t.log|])]) == [e];
    ReadsKept(t, t.items + [Item(e, [|t.log|])], e, d, text);
  }

  lemma ReadsMerge(t: Tape, e: Event, d: Draft, text: bool)
    requires Reads(t, d, text) && Due(t.log, e)
    requires t.items != [] && Mergeable(t.items[|t.items| - 1].event, e)
    ensures Reads(Tape(PlaceItem(t.items, 0, e, |t.log|, Merge), t.log + [e], t.lost), d, text)
  {
    PlaceLocal(t.items, e, |t.log|, Merge);
    ReadingMerge(Events(t.items), e, d, text);
    ReadsKept(t, PlaceItem(t.items, 0, e, |t.log|, Merge), e, d, text);
  }

  /** Evicting a frame to make room for an event. */
  lemma ReadsReplace(world: World, t: Tape, from: nat, e: Event, k: nat, d: Draft, text: bool)
    requires Reads(t, d, text) && Traced(world, t.items, t.log) && Due(t.log, e) && Fits(t.items, from, e, Evict(k))
    ensures Reads(Put(t, from, e, Evict(k)), d, text)
  {
    ReadsEvict(world, t, from + k, d, text);
    ReadsAppend(Without(t, from + k), e, d, text);
    EvictPuts(t, from, e, k);
  }

  lemma ReadsPut(world: World, t: Tape, from: nat, e: Event, p: Placement, d: Draft, text: bool)
    requires Reads(t, d, text) && Traced(world, t.items, t.log) && Fits(t.items, from, e, p) && Due(t.log, e)
    ensures Reads(Put(t, from, e, p), d, text)
  {
    match p
    case Append => ReadsAppend(t, e, d, text);
    case Evict(k) => ReadsReplace(world, t, from, e, k, d, text);
    case Merge => ReadsMerge(t, e, d, text);
    case Drop => ReadsLost(t, e, t.lost[|t.log| := Pressure], d, text);
    case Overload => ReadsLost(t, e, t.lost[|t.log| := Overloading], d, text);
  }

  lemma ReadsSkip(t: Tape, e: Event, d: Draft, text: bool)
    requires Reads(t, d, text) && !e.payload.Started?
    ensures Reads(Skip(t, e), d, text)
  {
    ReadsLost(t, e, Skip(t, e).lost, d, text);
  }

  lemma RetainReading(q: seq<Item>, work: Work, d: Draft, text: bool)
    requires forall x :: x in q && x !in RetainItems(q, work) ==> EventAtoms(x.event, d, text) == []
    ensures Reading(Events(RetainItems(q, work)), d, text) == Reading(Events(q), d, text)
  {
    RetainErases(q, work);
    forall e | e in Events(q) && e.identity.work == work
      ensures EventAtoms(e, d, text) == []
    {
      var i :| 0 <= i < |q| && Events(q)[i] == e;
      assert q[i] in q && q[i] !in RetainItems(q, work);
    }
    ReadingRetain(Events(q), work, d, text);
  }

  lemma ReadsRetain(world: World, t: Tape, from: nat, work: Work, d: Draft, text: bool)
    requires Reads(t, d, text) && Traced(world, t.items, t.log) && from <= |t.items|
    ensures Reads(Cut(t, t.items[..from] + RetainItems(t.items[from..], work), Finalization(work)), d, text)
  {
    var q, rest := t.items[from..], RetainItems(t.items[from..], work);
    RetainErases(q, work);
    if forall x :: x in q && x !in rest ==> EventAtoms(x.event, d, text) == [] {
      RetainReading(q, work, d, text);
    }
    ReadsCut(world, t, from, rest, Finalization(work), d, text);
  }

  lemma ClearReading(q: seq<Item>, d: Draft, text: bool)
    requires forall x :: x in q ==> EventAtoms(x.event, d, text) == []
    ensures Reading(Events(q), d, text) == []
  {
    forall e | e in Events(q)
      ensures EventAtoms(e, d, text) == []
    {
      var i :| 0 <= i < |q| && Events(q)[i] == e;
      assert q[i] in q;
    }
    ReadingSilent(Events(q), d, text);
  }

  lemma ReadsClear(world: World, t: Tape, from: nat, d: Draft, text: bool)
    requires Reads(t, d, text) && Traced(world, t.items, t.log) && from <= |t.items|
    ensures Reads(Cut(t, t.items[..from], Closing), d, text)
  {
    var q: seq<Item>, none: seq<Item> := t.items[from..], [];
    if forall x :: x in q && x !in none ==> EventAtoms(x.event, d, text) == [] {
      ClearReading(q, d, text);
      assert Events(none) == [];
    }
    ReadsCut(world, t, from, none, Closing, d, text);
    assert t.items[..from] + none == t.items[..from];
  }
}
