/** Facts about event sequences: episodes, readings and what eviction, merging and retention do to them. */
module DraftReadings {
  import opened Prelude
  import opened DraftEvents

  // ----- standings -----

  lemma {:induction false} ScanConcat(x: Standing, s: seq<Event>, t: seq<Event>, d: Draft, strict: bool := false)
    ensures Scan(x, s + t, d, strict) == Scan(Scan(x, s, d, strict), t, d, strict)
    decreases |s|
  {
    if s == [] {
      assert s + t == t;
    } else {
      assert (s + t)[1..] == s[1..] + t;
      ScanConcat(Next(x, s[0], d, strict), s[1..], t, d, strict);
    }
  }

  lemma {:induction false} ScanBad(s: seq<Event>, d: Draft, strict: bool := false)
    ensures Scan(Bad, s, d, strict) == Bad
    decreases |s|
  {
    if s != [] {
      ScanBad(s[1..], d, strict);
    }
  }

  /** A standing that has seen fewer deltas of the same episode. */
  predicate Behind(x: Standing, y: Standing) {
    x == y || (x.Open? && y.Open? && x.last <= y.last)
  }

  lemma {:induction false} ScanBehind(x: Standing, y: Standing, s: seq<Event>, d: Draft, strict: bool := false)
    requires Behind(x, y) && Scan(y, s, d, strict) != Bad
    ensures Scan(x, s, d, strict) != Bad && Behind(Scan(x, s, d, strict), Scan(y, s, d, strict))
    decreases |s|
  {
    if s == [] {
    } else {
      if Next(y, s[0], d, strict) == Bad {
        ScanBad(s[1..], d, strict);
      }
      ScanBehind(Next(x, s[0], d, strict), Next(y, s[0], d, strict), s[1..], d, strict);
    }
  }

  /** Losing a delta leaves the episodes well formed. */
  lemma ScanEvict(x: Standing, s: seq<Event>, k: nat, d: Draft, strict: bool := false)
    requires k < |s| && !s[k].Structural() && Scan(x, s, d, strict) != Bad
    ensures Scan(x, s[..k] + s[k + 1..], d, strict) != Bad
    ensures Behind(Scan(x, s[..k] + s[k + 1..], d, strict), Scan(x, s, d, strict))
  {
    var before := Scan(x, s[..k], d, strict);
    assert s == s[..k] + ([s[k]] + s[k + 1..]);
    ScanConcat(x, s[..k], [s[k]] + s[k + 1..], d, strict);
    ScanConcat(x, s[..k], s[k + 1..], d, strict);
    assert ([s[k]] + s[k + 1..])[1..] == s[k + 1..];
    if Next(before, s[k], d, strict) == Bad {
      ScanBad(s[k + 1..], d, strict);
    }
    ScanBehind(before, Next(before, s[k], d, strict), s[k + 1..], d, strict);
  }

  lemma ScanAppend(x: Standing, s: seq<Event>, e: Event, d: Draft, strict: bool := false)
    ensures Scan(x, s + [e], d, strict) == Next(Scan(x, s, d, strict), e, d, strict)
  {
    ScanConcat(x, s, [e], d, strict);
    assert [e][1..] == [];
  }

  /** The last event, when it is a delta of `d`, is where `d` stands. */
  lemma ScanLast(x: Standing, s: seq<Event>, d: Draft, strict: bool := false)
    requires s != [] && s[|s| - 1].payload.Delta? && s[|s| - 1].Of(d) && Scan(x, s, d, strict) != Bad
    ensures Scan(x, s, d, strict) == Open(s[|s| - 1].payload.sequence)
  {
    assert s == s[..|s| - 1] + [s[|s| - 1]];
    ScanAppend(x, s[..|s| - 1], s[|s| - 1], d, strict);
  }

  /** Folding a later delta into the last frame continues its episode. */
  lemma ScanMerge(x: Standing, s: seq<Event>, e: Event, d: Draft, strict: bool := false)
    requires s != [] && Mergeable(s[|s| - 1], e) && Scan(x, s, d, strict) != Bad
    requires e.Of(d) ==> e.payload.sequence > s[|s| - 1].payload.sequence
    ensures Scan(x, Place(s, e, Merge), d, strict) == if e.Of(d) then Open(e.payload.sequence) else Scan(x, s, d, strict)
  {
    var front, last := s[..|s| - 1], s[|s| - 1];
    assert s == front + [last];
    ScanAppend(x, front, last, d, strict);
    ScanAppend(x, front, Coalesce(last, e), d, strict);
  }

  lemma {:induction false} ScanRetain(x: Standing, s: seq<Event>, work: Work, d: Draft, mine: bool, strict: bool := false)
    requires forall e :: e in s && e.Of(d) ==> (e.identity.work == work <==> mine)
    ensures Scan(x, Retain(s, work), d, strict) == if mine then x else Scan(x, s, d, strict)
    decreases |s|
  {
    if s != [] {
      var kept := if s[0].identity.work != work then [s[0]] else [];
      ScanConcat(x, kept, Retain(s[1..], work), d, strict);
      assert kept != [] ==> kept[1..] == [];
      ScanRetain(Next(x, s[0], d, strict), s[1..], work, d, mine, strict);
      ScanRetain(x, s[1..], work, d, mine, strict);
    }
  }

  // ----- readings -----

  /** What a reader of one draft sees, octet by octet. */
  datatype Atom = Opened | Octet(kind: Kind, value: byte) | Closed(reason: Reason)

  function EventAtoms(e: Event, d: Draft, text: bool): seq<Atom> {
    if !e.Of(d) then []
    else
      match e.payload
      case Started => [Opened]
      case Delta(_, kind, t) => if text then seq(|t|, i requires 0 <= i < |t| => Octet(kind, t[i])) else []
      case Abandoned(reason) => [Closed(reason)]
  }

  /** The reading of a stream: structural events, and the text between them if `text`. */
  function Reading(s: seq<Event>, d: Draft, text: bool): seq<Atom> {
    if s == [] then [] else EventAtoms(s[0], d, text) + Reading(s[1..], d, text)
  }

  lemma {:induction false} ReadingConcat(s: seq<Event>, t: seq<Event>, d: Draft, text: bool)
    ensures Reading(s + t, d, text) == Reading(s, d, text) + Reading(t, d, text)
  {
    if s == [] {
      assert s + t == t;
    } else {
      assert (s + t)[1..] == s[1..] + t;
      ReadingConcat(s[1..], t, d, text);
    }
  }

  lemma ReadingAppend(s: seq<Event>, e: Event, d: Draft, text: bool)
    ensures Reading(s + [e], d, text) == Reading(s, d, text) + EventAtoms(e, d, text)
  {
    ReadingConcat(s, [e], d, text);
    assert [e][1..] == [];
    assert Reading([e], d, text) == EventAtoms(e, d, text);
  }

  /** Losing an event the reader does not see changes nothing. */
  lemma ReadingEvict(s: seq<Event>, k: nat, d: Draft, text: bool)
    requires k < |s| && EventAtoms(s[k], d, text) == []
    ensures Reading(s[..k] + s[k + 1..], d, text) == Reading(s, d, text)
  {
    assert s == s[..k] + [s[k]] + s[k + 1..];
    ReadingConcat(s[..k] + [s[k]], s[k + 1..], d, text);
    ReadingAppend(s[..k], s[k], d, text);
    ReadingConcat(s[..k], s[k + 1..], d, text);
  }

  lemma {:induction false} ReadingSilent(s: seq<Event>, d: Draft, text: bool)
    requires forall e :: e in s ==> EventAtoms(e, d, text) == []
    ensures Reading(s, d, text) == []
  {
    if s != [] {
      ReadingSilent(s[1..], d, text);
    }
  }

  /** A merged frame reads as the two frames it was made of. */
  lemma ReadingMerge(s: seq<Event>, e: Event, d: Draft, text: bool)
    requires s != [] && Mergeable(s[|s| - 1], e)
    ensures Reading(Place(s, e, Merge), d, text) == Reading(s + [e], d, text)
  {
    var front, last := s[..|s| - 1], s[|s| - 1];
    assert s == front + [last];
    ReadingAppend(front, last, d, text);
    ReadingAppend(s, e, d, text);
    ReadingAppend(front, Coalesce(last, e), d, text);
    assert EventAtoms(Coalesce(last, e), d, text) == EventAtoms(last, d, text) + EventAtoms(e, d, text);
  }

  lemma {:induction false} ReadingRetain(s: seq<Event>, work: Work, d: Draft, text: bool)
    requires forall e :: e in s && e.identity.work == work ==> EventAtoms(e, d, text) == []
    ensures Reading(Retain(s, work), d, text) == Reading(s, d, text)
  {
    if s != [] {
      var kept := if s[0].identity.work != work then [s[0]] else [];
      ReadingConcat(kept, Retain(s[1..], work), d, text);
      ReadingRetain(s[1..], work, d, text);
      assert kept != [] ==> kept[1..] == [] && Reading(kept, d, text) == EventAtoms(s[0], d, text);
      assert kept == [] ==> EventAtoms(s[0], d, text) == [];
    }
  }

  // ----- what a subscriber is owed -----

  /** Whether the log holds the start of an episode of `d` that it has not ended. */
  predicate Begun(log: seq<Event>, d: Draft) {
    if log == [] then false
    else
      var e := log[|log| - 1];
      if e.Of(d) && e.Structural() then e.payload.Started? else Begun(log[..|log| - 1], d)
  }

  /** The events of `d` that belong to episodes begun in the log. */
  function Owed(log: seq<Event>, d: Draft): seq<Event> {
    if log == [] then []
    else
      var front, e := log[..|log| - 1], log[|log| - 1];
      if e.Of(d) && (e.payload.Started? || Begun(front, d)) then Owed(front, d) + [e] else Owed(front, d)
  }

  lemma LogAppend(log: seq<Event>, e: Event, d: Draft)
    ensures Begun(log + [e], d) == if e.Of(d) && e.Structural() then e.payload.Started? else Begun(log, d)
    ensures Owed(log + [e], d) == if e.Of(d) && (e.payload.Started? || Begun(log, d)) then Owed(log, d) + [e] else Owed(log, d)
  {
  }
}
