/** Subscribers do not affect one another. */
module DraftIsolation {
  import opened DraftEvents
  import opened DraftBroker
  import opened DraftRuns

  /** A subscriber and the drafts, with no other subscriber; `got` is what it was delivered. */
  datatype Solo = Solo(core: Core, self: Subscriber, got: seq<Event>)

  /** The calls that concern a subscriber: those on drafts, and its own receives, written `Receive(0)`. */
  function Sight(op: Op, i: nat): seq<Op> {
    match op
    case Subscribe => []
    case Unsubscribe(_) => []
    case Receive(j) => if j == i then [Receive(0)] else []
    case _ => [op]
  }

  function SightAll(ops: seq<Op>, i: nat): seq<Op> {
    if ops == [] then [] else Sight(ops[0], i) + SightAll(ops[1..], i)
  }

  ghost function SoloStep(x: Solo, op: Op, size: Event -> nat): Solo {
    EffectsWellFormed(x.core, op, size);
    var effect := Effects(x.core, op, size);
    if op == Receive(0) then
      if Deliverable(x.self) then Solo(x.core, Pop(x.self), x.got + [x.self.queue[0]]) else x
    else
      Solo(effect.core, HearAll(x.self, effect.says, size), x.got)
  }

  ghost function SoloRun(x: Solo, ops: seq<Op>, size: Event -> nat): Solo
    decreases |ops|
  {
    if ops == [] then x else SoloRun(SoloStep(x, ops[0], size), ops[1..], size)
  }

  ghost predicate Is(x: Solo, b: Broker, i: nat) {
    Numbered(b) && i in b.subscribers && x.core == b.core && x.self == b.subscribers[i]
  }

  lemma StepAlone(x: Solo, b: Broker, i: nat, op: Op, size: Event -> nat)
    requires Is(x, b, i) && op != Unsubscribe(i)
    ensures var y := SoloRun(x, Sight(op, i), size); Is(y, Step(b, op, size), i) && y.got == x.got + Received(b, op, i)
  {
  }

  lemma {:induction false} SoloConcat(x: Solo, s: seq<Op>, t: seq<Op>, size: Event -> nat)
    ensures SoloRun(x, s + t, size) == SoloRun(SoloRun(x, s, size), t, size)
    decreases |s|
  {
    if s == [] {
      assert s + t == t;
    } else {
      assert (s + t)[1..] == s[1..] + t;
      SoloConcat(SoloStep(x, s[0], size), s[1..], t, size);
    }
  }

  /** A subscriber among others lives as it would alone. */
  lemma {:induction false} RunAlone(x: Solo, b: Broker, i: nat, ops: seq<Op>, size: Event -> nat)
    requires Is(x, b, i) && Unsubscribe(i) !in ops
    ensures var y := SoloRun(x, SightAll(ops, i), size);
            Is(y, Run(b, ops, size), i) && y.got == x.got + Delivered(b, ops, i, size)
    decreases |ops|
  {
    if ops != [] {
      StepAlone(x, b, i, ops[0], size);
      RunAlone(SoloRun(x, Sight(ops[0], i), size), Step(b, ops[0], size), i, ops[1..], size);
      SoloConcat(x, Sight(ops[0], i), SightAll(ops[1..], i), size);
    }
  }

  /** Two brokers agree on the drafts, and subscriber `i` of one is as subscriber `j` of the other. */
  ghost predicate Alike(b: Broker, i: nat, c: Broker, j: nat) {
    && i in b.subscribers && j in c.subscribers && b.subscribers[i] == c.subscribers[j] && b.core == c.core
    && Numbered(b) && Numbered(c)
  }

  lemma AlikeAlone(y: Solo, b: Broker, i: nat, c: Broker, j: nat)
    requires Is(y, b, i) && Is(y, c, j)
    ensures Alike(b, i, c, j)
  {
  }

  /**
   * Pressure isolation. Two subscribers, of any two brokers that agree on the drafts, that start
   * alike and see the same calls on drafts interleaved alike with their own receives are delivered
   * the same events and end with the same queue, eligibility and overload flag: joining, stalling
   * and dropping other subscribers changes nothing.
   */
  lemma Isolated(b: Broker, i: nat, xs: seq<Op>, c: Broker, j: nat, ys: seq<Op>, size: Event -> nat)
    requires Alike(b, i, c, j) && Unsubscribe(i) !in xs && Unsubscribe(j) !in ys
    requires SightAll(xs, i) == SightAll(ys, j)
    ensures Alike(Run(b, xs, size), i, Run(c, ys, size), j)
    ensures Delivered(b, xs, i, size) == Delivered(c, ys, j, size)
  {
    var x := Solo(b.core, b.subscribers[i], []);
    RunAlone(x, b, i, xs, size);
    RunAlone(x, c, j, ys, size);
    AlikeAlone(SoloRun(x, SightAll(xs, i), size), Run(b, xs, size), i, Run(c, ys, size), j);
    assert [] + Delivered(b, xs, i, size) == Delivered(b, xs, i, size);
    assert [] + Delivered(c, ys, j, size) == Delivered(c, ys, j, size);
  }
}
