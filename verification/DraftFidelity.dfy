/** What a disciplined broadcast keeps true of a watched subscriber. */
module DraftFidelity {
  import opened Prelude
  import opened DraftEvents
  import opened DraftStreams

  // ----- provenance -----

  ghost predicate Increasing(s: seq<nat>) {
    forall i, j :: 0 <= i < j < |s| ==> s[i] < s[j]
  }

  ghost predicate Deltas(log: seq<Event>, sources: seq<nat>) {
    forall i :: 0 <= i < |sources| ==> sources[i] < |log| && log[sources[i]].payload.Delta?
  }

  ghost function Texts(log: seq<Event>, sources: seq<nat>): Bytes
    requires Deltas(log, sources)
  {
    if sources == [] then []
    else
      var k := |sources| - 1;
      Texts(log, sources[..k]) + log[sources[k]].payload.text
  }

  /** The events at `sources` are deltas of the episode and kind of `e`. */
  ghost predicate Kindred(log: seq<Event>, sources: seq<nat>, e: Event)
    requires Deltas(log, sources)
  {
    && e.payload.Delta?
    && forall i :: 0 <= i < |sources| ==>
                     log[sources[i]].identity == e.identity && log[sources[i]].payload.kind == e.payload.kind
  }

  ghost predicate Climbing(log: seq<Event>, sources: seq<nat>)
    requires Deltas(log, sources)
  {
    forall i, j :: 0 <= i < j < |sources| ==> log[sources[i]].payload.sequence < log[sources[j]].payload.sequence
  }

  /**
   * A structural frame is one logged event. A delta frame is the concatenation, in order, of
   * logged deltas of the same draft and kind with increasing sequences, ending at its own.
   */
  ghost predicate Made(log: seq<Event>, x: Item) {
    && x.sources != [] && Increasing(x.sources) && x.sources[|x.sources| - 1] < |log|
    && if x.event.Structural() then
         |x.sources| == 1 && log[x.sources[0]] == x.event
       else
         && Deltas(log, x.sources) && Kindred(log, x.sources, x.event) && Climbing(log, x.sources)
         && x.event.payload.sequence == log[x.sources[|x.sources| - 1]].payload.sequence
         && x.event.payload.text == Texts(log, x.sources)
  }

  function LastSource(x: Item): nat
    requires x.sources != []
  {
    x.sources[|x.sources| - 1]
  }

  /** Frames use disjoint, ordered ranges of the log. */
  ghost predicate Ordered(items: seq<Item>) {
    && (forall x :: x in items ==> x.sources != [])
    && forall i, j :: 0 <= i < j < |items| ==> LastSource(items[i]) < items[j].sources[0]
  }

  ghost predicate Sized(world: World, x: Item) {
    x.event.payload.Delta? ==> world.size(x.event) <= MAX_FRAME_BYTES
  }

  ghost predicate Traced(world: World, items: seq<Item>, log: seq<Event>) {
    && (forall x :: x in items ==> Made(log, x) && Sized(world, x))
    && Ordered(items)
    && (forall e :: e in log ==> e.identity == world.owner(e.identity.draft))
  }

  lemma TextsGrow(log: seq<Event>, e: Event, sources: seq<nat>)
    requires Deltas(log, sources)
    ensures Deltas(log + [e], sources) && Texts(log + [e], sources) == Texts(log, sources)
  {
  }

  lemma MadeGrows(log: seq<Event>, e: Event, x: Item)
    requires Made(log, x)
    ensures Made(log + [e], x)
  {
    if !x.event.Structural() {
      TextsGrow(log, e, x.sources);
    }
  }

  lemma MadeNew(log: seq<Event>, e: Event)
    ensures Made(log + [e], Item(e, [|log|]))
  {
  }

  lemma MadeMerged(log: seq<Event>, e: Event, x: Item)
    requires Made(log, x) && Mergeable(x.event, e) && x.event.identity == e.identity
    requires x.event.payload.sequence < e.payload.sequence
    ensures Made(log + [e], Item(Coalesce(x.event, e), x.sources + [|log|]))
  {
    MadeGrows(log, e, x);
    var grown, k, sources := log + [e], |x.sources|, x.sources + [|log|];
    assert sources[..k] == x.sources;
    forall i, j | 0 <= i < j < |sources|
      ensures grown[sources[i]].payload.sequence < grown[sources[j]].payload.sequence
    {
      if j == k && i < k - 1 {
        assert grown[x.sources[i]].payload.sequence < grown[x.sources[k - 1]].payload.sequence;
      }
    }
  }

  ghost predicate Before(x: seq<Item>, y: seq<Item>)
    requires (forall a :: a in x ==> a.sources != []) && (forall b :: b in y ==> b.sources != [])
  {
    forall a, b :: a in x && b in y ==> LastSource(a) < b.sources[0]
  }

  lemma OrderedSplit(x: seq<Item>, y: seq<Item>)
    requires Ordered(x + y)
    ensures Ordered(x) && Ordered(y) && Before(x, y)
  {
    var s := x + y;
    assert forall a :: a in x ==> a in s;
    assert forall b :: b in y ==> b in s;
    assert Ordered(x) by {
      assert forall i :: 0 <= i < |x| ==> s[i] == x[i];
    }
    assert Ordered(y) by {
      forall i, j | 0 <= i < j < |y|
        ensures LastSource(y[i]) < y[j].sources[0]
      {
        assert s[|x| + i] == y[i] && s[|x| + j] == y[j];
      }
    }
    forall a, b | a in x && b in y
      ensures LastSource(a) < b.sources[0]
    {
      var i :| 0 <= i < |x| && x[i] == a;
      var j :| 0 <= j < |y| && y[j] == b;
      assert s[i] == a && s[|x| + j] == b;
    }
  }

  lemma OrderedJoin(x: seq<Item>, y: seq<Item>)
    requires Ordered(x) && Ordered(y) && Before(x, y)
    ensures Ordered(x + y)
  {
  }

  lemma {:induction false} OrderedRetain(items: seq<Item>, work: Work)
    requires Ordered(items)
    ensures Ordered(RetainItems(items, work))
  {
    if items != [] {
      assert items == [items[0]] + items[1..];
      OrderedSplit([items[0]], items[1..]);
      OrderedRetain(items[1..], work);
      RetainErases(items[1..], work);
      var kept := if items[0].event.identity.work != work then [items[0]] else [];
      OrderedJoin(kept, RetainItems(items[1..], work));
    }
  }

  lemma OrderedKeep(items: seq<Item>, from: nat, rest: seq<Item>)
    requires from <= |items| && Ordered(items) && Ordered(rest)
    requires forall x :: x in rest ==> x in items[from..]
    ensures Ordered(items[..from] + rest)
  {
    assert items == items[..from] + items[from..];
    OrderedSplit(items[..from], items[from..]);
    OrderedJoin(items[..from], rest);
  }

  lemma OrderedAppend(items: seq<Item>, log: seq<Event>, x: Item)
    requires Ordered(items) && (forall y :: y in items ==> Made(log, y))
    requires x.sources != [] && x.sources[0] >= |log|
    ensures Ordered(items + [x])
  {
    OrderedJoin(items, [x]);
  }

  /** Growing the last frame keeps the ranges disjoint. */
  lemma OrderedMerge(items: seq<Item>, e: Event, n: nat)
    requires items != [] && Ordered(items)
    ensures Ordered(items[..|items| - 1] + [Item(e, items[|items| - 1].sources + [n])])
  {
  }

  lemma TracedSkip(world: World, items: seq<Item>, log: seq<Event>, e: Event)
    requires Traced(world, items, log) && e.identity == world.owner(e.identity.draft)
    ensures Traced(world, items, log + [e])
  {
    forall x | x in items
      ensures Made(log + [e], x)
    {
      MadeGrows(log, e, x);
    }
  }

  lemma TracedCut(world: World, items: seq<Item>, log: seq<Event>, from: nat, rest: seq<Item>)
    requires Traced(world, items, log) && from <= |items| && Ordered(rest)
    requires forall x :: x in rest ==> x in items[from..]
    ensures Traced(world, items[..from] + rest, log)
  {
    OrderedKeep(items, from, rest);
  }

  lemma TracedAppend(world: World, items: seq<Item>, log: seq<Event>, e: Event)
    requires Traced(world, items, log) && e.identity == world.owner(e.identity.draft) && Sized(world, Item(e, [|log|]))
    ensures Traced(world, items + [Item(e, [|log|])], log + [e])
  {
    OrderedAppend(items, log, Item(e, [|log|]));
    TracedSkip(world, items, log, e);
    MadeNew(log, e);
  }

  lemma MadeOwned(world: World, log: seq<Event>, x: Item)
    requires Made(log, x) && forall e :: e in log ==> e.identity == world.owner(e.identity.draft)
    ensures x.event.identity == world.owner(x.event.identity.draft)
  {
  }

  lemma TracedMerge(world: World, items: seq<Item>, log: seq<Event>, e: Event)
    requires Traced(world, items, log) && e.identity == world.owner(e.identity.draft)
    requires items != [] && Mergeable(items[|items| - 1].event, e)
    requires items[|items| - 1].event.payload.sequence < e.payload.sequence
    requires world.size(Coalesce(items[|items| - 1].event, e)) <= MAX_FRAME_BYTES
    ensures Traced(world, PlaceItem(items, 0, e, |log|, Merge), log + [e])
  {
    var front, last := items[..|items| - 1], items[|items| - 1];
    var merged := Item(Coalesce(last.event, e), last.sources + [|log|]);
    TracedSkip(world, items, log, e);
    OrderedMerge(items, Coalesce(last.event, e), |log|);
    assert Made(log + [e], merged) by {
      MadeOwned(world, log, last);
      MadeMerged(log, e, last);
    }
    assert forall x :: x in front ==> x in items;
  }
}
