/** The stream-head query: what it means that it counts no violation. */
module StreamHeads {
  /** One journal row: its stream and its number in the stream. A set of them has no duplicates. */
  datatype Entry = Entry(stream: nat, sequence: int)

  ghost function Rows(events: set<Entry>, stream: nat): set<Entry> {
    set e | e in events && e.stream == stream
  }

  ghost function Sequences(events: set<Entry>, stream: nat): set<int> {
    set e | e in events && e.stream == stream :: e.sequence
  }

  ghost function Streams(events: set<Entry>): set<nat> {
    set e | e in events :: e.stream
  }

  ghost predicate IsMax(s: set<int>, m: int) {
    m in s && forall x :: x in s ==> x <= m
  }

  lemma {:induction false} MaxExists(s: set<int>, x: int) returns (m: int)
    requires x in s
    ensures IsMax(s, m)
    decreases |s|
  {
    if y :| y in s && x < y {
      m := MaxExists(s - {x}, y);
      assert forall z :: z in s ==> z == x || z in s - {x};
    } else {
      m := x;
    }
  }

  /** The streams whose head is missing, is not their last number, or whose numbers do not add up to it. */
  ghost predicate Flawed(events: set<Entry>, heads: map<nat, int>, stream: nat) {
    exists m :: IsMax(Sequences(events, stream), m) && (stream !in heads || heads[stream] != m || |Rows(events, stream)| != m)
  }

  /** What the query counts: flawed streams, and heads of streams without events. */
  ghost function Violations(events: set<Entry>, heads: map<nat, int>): nat {
    |set s | s in Streams(events) && Flawed(events, heads, s)| + |set s | s in heads && s !in Streams(events)|
  }

  /** The numbers 1 to `n`. */
  function Upto(n: int): (s: set<int>)
    ensures forall i :: i in s <==> 1 <= i <= n
    decreases if n < 0 then 0 else n
  {
    if n <= 0 then {} else Upto(n - 1) + {n}
  }

  lemma {:induction false} UptoSize(n: nat)
    ensures |Upto(n)| == n
  {
    if n > 0 {
      UptoSize(n - 1);
    }
  }

  lemma {:induction false} SubsetSize<T>(a: set<T>, b: set<T>)
    requires a <= b
    ensures |a| <= |b| && (|a| == |b| ==> a == b)
    decreases |a|
  {
    if a != {} {
      var x :| x in a;
      SubsetSize(a - {x}, b - {x});
      assert |a - {x}| == |a| - 1 && |b - {x}| == |b| - 1;
      if |a| == |b| {
        assert a == (a - {x}) + {x} && b == (b - {x}) + {x};
      }
    }
  }

  /** As many positive numbers as the greatest of them are all the numbers up to it. */
  lemma Pigeonhole(s: set<int>, m: int)
    requires (forall x :: x in s ==> 1 <= x) && IsMax(s, m)
    ensures |s| == m <==> s == Upto(m)
  {
    UptoSize(m);
    assert s <= Upto(m);
    SubsetSize(s, Upto(m));
  }

  /** Within a stream, rows and numbers correspond one to one. */
  lemma {:induction false} RowsCount(rows: set<Entry>, stream: nat)
    requires forall e :: e in rows ==> e.stream == stream
    ensures |rows| == |set e | e in rows :: e.sequence|
    decreases |rows|
  {
    var numbers := set e | e in rows :: e.sequence;
    if rows == {} {
      assert numbers == {};
    } else {
      var x :| x in rows;
      var rest := rows - {x};
      RowsCount(rest, stream);
      assert x.sequence !in (set e | e in rest :: e.sequence);
      assert numbers == (set e | e in rest :: e.sequence) + {x.sequence};
    }
  }

  /** A stream is sound when its numbers are 1 to its head without a gap. */
  ghost predicate Gapless(events: set<Entry>, heads: map<nat, int>, stream: nat) {
    stream in heads && Sequences(events, stream) == Upto(heads[stream])
  }

  lemma FlawedGapless(events: set<Entry>, heads: map<nat, int>, stream: nat)
    requires (forall e :: e in events ==> 1 <= e.sequence) && stream in Streams(events)
    ensures Flawed(events, heads, stream) <==> !Gapless(events, heads, stream)
  {
    var s := Sequences(events, stream);
    var e :| e in events && e.stream == stream;
    assert e.sequence in s;
    var m := MaxExists(s, e.sequence);
    Pigeonhole(s, m);
    RowsCount(Rows(events, stream), stream);
    assert s == set x | x in Rows(events, stream) :: x.sequence;
    if Gapless(events, heads, stream) {
      assert heads[stream] == m by {
        assert m in Upto(heads[stream]) && heads[stream] in Upto(heads[stream]);
      }
    }
    assert forall k :: IsMax(s, k) ==> k == m;
  }

  /**
   * No violation is counted exactly when every stream is numbered 1 to its head, and heads are kept
   * for exactly the streams that have events.
   */
  lemma NoViolations(events: set<Entry>, heads: map<nat, int>)
    requires forall e :: e in events ==> 1 <= e.sequence
    ensures Violations(events, heads) == 0 <==>
            heads.Keys == Streams(events) && forall s :: s in heads ==> Gapless(events, heads, s)
  {
    var flawed := set s | s in Streams(events) && Flawed(events, heads, s);
    var idle := set s | s in heads && s !in Streams(events);
    assert Violations(events, heads) == 0 <==> flawed == {} && idle == {};
    forall s | s in Streams(events)
      ensures s in flawed <==> !Gapless(events, heads, s)
    {
      FlawedGapless(events, heads, s);
    }
    assert idle == {} <==> heads.Keys <= Streams(events) by {
      assert forall s :: s in idle <==> s in heads.Keys && s !in Streams(events);
    }
    if flawed == {} {
      assert forall s :: s in Streams(events) ==> Gapless(events, heads, s);
    }
    if heads.Keys == Streams(events) && forall s :: s in heads ==> Gapless(events, heads, s) {
      assert forall s :: s in flawed ==> s in heads;
    }
  }
}
