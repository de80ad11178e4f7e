/** The broker and the filter of one connection together: which draft events reach its wire. */
module DraftPassage {
  import opened Prelude
  import opened DraftEvents
  import opened DraftFilter

  // ----- what the filter lets pass -----

  /** Every event of `d` that is fed is forwarded. */
  ghost predicate PassesAll(fed: seq<Frame>, d: Draft) {
    forall k :: 0 <= k < |fed| && fed[k].Live? && fed[k].draft.Of(d) ==> Passes(Filter(fed[..k]).active, fed[k])
  }

  lemma PassesNext(fed: seq<Frame>, f: Frame, d: Draft)
    ensures PassesAll(fed + [f], d) <==>
            PassesAll(fed, d) && (f.Live? && f.draft.Of(d) ==> Passes(Filter(fed).active, f))
  {
    var more := fed + [f];
    assert more[|fed|] == f && more[..|fed|] == fed;
    assert forall k :: 0 <= k < |fed| ==> more[k] == fed[k] && more[..k] == fed[..k];
  }

  lemma {:induction false} FilterShorter(fed: seq<Frame>)
    ensures |Filter(fed).out| <= |fed|
  {
    if fed != [] {
      FilterShorter(fed[..|fed| - 1]);
    }
  }

  /** The filter forwards everything when it forwards the events of every draft. */
  lemma {:induction false} FilterForwards(fed: seq<Frame>)
    ensures Filter(fed).out == fed <==> forall d :: PassesAll(fed, d)
  {
    if fed != [] {
      var k := |fed| - 1;
      var front, f := fed[..k], fed[k];
      assert fed == front + [f];
      FilterForwards(front);
      FilterShorter(front);
      FilterNext(front, f);
      forall d
        ensures PassesAll(fed, d) <==> PassesAll(front, d) && (f.Live? && f.draft.Of(d) ==> Passes(Filter(front).active, f))
      {
        PassesNext(front, f, d);
      }
      if f.Live? {
        assert f.draft.Of(f.draft.identity.draft);
        assert (forall d :: PassesAll(fed, d)) ==> PassesAll(fed, f.draft.identity.draft);
      }
    }
  }

  // ----- standings on the wire -----

  /** A last word on its work ends the episode of a draft. */
  function NextFrame(x: Standing, f: Frame, d: Draft, work: Work, strict: bool := false): Standing {
    match f
    case Live(e) => Next(x, e, d, strict)
    case Durable(e) => if x != Bad && e.Finalizes() == Some(work) then Shut else x
    case Sync(_) => x
  }

  function ScanFrames(fed: seq<Frame>, d: Draft, work: Work, strict: bool := false): Standing {
    if fed == [] then Shut
    else NextFrame(ScanFrames(fed[..|fed| - 1], d, work, strict), fed[|fed| - 1], d, work, strict)
  }

  /** The frame at `k` starts an episode of `d` while the last one is open. */
  ghost predicate RestartsAt(fed: seq<Frame>, d: Draft, work: Work, k: nat) {
    && k < |fed| && fed[k].Live? && fed[k].draft.Of(d) && fed[k].draft.payload.Started?
    && ScanFrames(fed[..k], d, work).Open?
  }

  lemma ScanFramesNext(fed: seq<Frame>, f: Frame, d: Draft, work: Work, strict: bool := false)
    ensures ScanFrames(fed + [f], d, work, strict) == NextFrame(ScanFrames(fed, d, work, strict), f, d, work, strict)
  {
    assert (fed + [f])[..|fed|] == fed;
  }

  /** Well-formed frames are strictly so exactly when nothing restarts. */
  lemma {:induction false} StrictFrames(fed: seq<Frame>, d: Draft, work: Work)
    requires ScanFrames(fed, d, work) != Bad
    ensures ScanFrames(fed, d, work, true) != Bad <==> forall k: nat :: !RestartsAt(fed, d, work, k)
    ensures ScanFrames(fed, d, work, true) != Bad ==> ScanFrames(fed, d, work, true) == ScanFrames(fed, d, work)
  {
    if fed != [] {
      var k := |fed| - 1;
      var front, f := fed[..k], fed[k];
      StrictFrames(front, d, work);
      assert forall j: nat :: j < k ==> (RestartsAt(fed, d, work, j) <==> RestartsAt(front, d, work, j)) by {
        assert forall j: nat :: j < k ==> front[..j] == fed[..j];
      }
      if ScanFrames(front, d, work, true) == Bad {
        var j: nat :| RestartsAt(front, d, work, j);
        assert RestartsAt(fed, d, work, j);
      } else {
        assert RestartsAt(fed, d, work, k) <==>
               f.Live? && f.draft.Of(d) && f.draft.payload.Started? && ScanFrames(front, d, work).Open?;
      }
    }
  }

  /** The filter remembers where a draft stands. */
  ghost predicate Shows(world: World, active: Active, d: Draft, x: Standing) {
    && (d in active <==> x.Open?)
    && (d in active ==> active[d] == ConnectionDraft(world.owner(d).work, world.owner(d).invocation, x.last))
  }

  lemma TrackShows(world: World, active: Active, f: Frame, d: Draft, x: Standing)
    requires Shows(world, active, d, x) && x != Bad && (f.Live? ==> Owned(world, f.draft))
    ensures var y := NextFrame(x, f, d, world.owner(d).work, true);
            && (y != Bad ==> Shows(world, Track(active, f), d, y))
            && (f.Live? && f.draft.Of(d) ==> (Passes(active, f) <==> y != Bad))
            && (!(f.Live? && f.draft.Of(d)) ==> y != Bad)
  {
  }

  /** The filter forwards the events of a draft exactly while they are strictly well formed. */
  lemma {:induction false} FilterStrict(world: World, fed: seq<Frame>, d: Draft)
    requires AllOwned(world, fed)
    ensures var x := ScanFrames(fed, d, world.owner(d).work, true);
            (PassesAll(fed, d) <==> x != Bad) && (x != Bad ==> Shows(world, Filter(fed).active, d, x))
  {
    if fed != [] {
      var k, work := |fed| - 1, world.owner(d).work;
      var front, f := fed[..k], fed[k];
      assert fed == front + [f];
      FilterStrict(world, front, d);
      PassesNext(front, f, d);
      if ScanFrames(front, d, work, true) != Bad {
        TrackShows(world, Filter(front).active, f, d, ScanFrames(front, d, work, true));
      }
    }
  }

  /** Frames that are well formed by the broker's measure pass exactly when no episode restarts. */
  lemma PassesExactly(world: World, fed: seq<Frame>, d: Draft)
    requires AllOwned(world, fed) && ScanFrames(fed, d, world.owner(d).work) != Bad
    ensures PassesAll(fed, d) <==> forall k: nat :: !RestartsAt(fed, d, world.owner(d).work, k)
  {
    FilterStrict(world, fed, d);
    StrictFrames(fed, d, world.owner(d).work);
  }
}
