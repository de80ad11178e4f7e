/** What finalizing a work and closing the broker leave behind. */
module DraftClosings {
  import opened Prelude
  import opened DraftEvents
  import opened DraftBroker
  import opened DraftTheorems
  import opened DraftRuns

  // ----- finalizing a work -----

  /** The queued frames of one work, in order. */
  function FramesOf(q: seq<Event>, work: Work): seq<Event> {
    if q == [] then []
    else FramesOf(q[..|q| - 1], work) + if q[|q| - 1].identity.work == work then [q[|q| - 1]] else []
  }

  lemma {:induction false} FramesConcat(x: seq<Event>, y: seq<Event>, work: Work)
    ensures FramesOf(x + y, work) == FramesOf(x, work) + FramesOf(y, work)
    decreases |y|
  {
    if y == [] {
      assert x + y == x;
    } else {
      var k := |y| - 1;
      assert (x + y)[..|x + y| - 1] == x + y[..k];
      FramesConcat(x, y[..k], work);
      Associates(FramesOf(x, work), FramesOf(y[..k], work), if y[k].identity.work == work then [y[k]] else []);
    }
  }

  lemma {:induction false} RetainFrames(q: seq<Event>, work: Work, other: Work)
    ensures FramesOf(Retain(q, work), other) == if other == work then [] else FramesOf(q, other)
    ensures forall e :: e in Retain(q, work) ==> e in q && e.identity.work != work
  {
    if q != [] {
      var first := if q[0].identity.work != work then [q[0]] else [];
      RetainFrames(q[1..], work, other);
      FramesConcat(first, Retain(q[1..], work), other);
      FramesConcat([q[0]], q[1..], other);
      assert q == [q[0]] + q[1..];
      FramesOne(q[0], other);
    }
  }

  lemma FramesOne(e: Event, work: Work)
    ensures FramesOf([e], work) == if e.identity.work == work then [e] else []
  {
    assert [e][..0] == [];
  }

  /**
   * Finalizing a work takes every frame of it out of every queue and forgets its drafts; the frames,
   * drafts and eligibility of every other work stay as they are.
   */
  lemma FinalizeClears(b: Broker, work: Work, size: Event -> nat, i: nat, other: Work)
    requires i in b.subscribers
    ensures var next := Step(b, Finalize(work), size);
            && i in next.subscribers
            && var s, t := b.subscribers[i], next.subscribers[i];
            && FramesOf(t.queue, other) == (if other == work then [] else FramesOf(s.queue, other))
            && t.overloaded == s.overloaded && t.dropped == s.dropped
            && (forall d :: d in t.eligible <==>
                            d in s.eligible && forall k :: k in b.core.drafts && b.core.drafts[k].identity.draft == d ==>
                                                             b.core.drafts[k].identity.work != work)
            && (forall d :: d in t.eligible ==> t.eligible[d] == s.eligible[d])
            && (forall k :: k in next.core.drafts <==> k in b.core.drafts && b.core.drafts[k].identity.work != work)
            && (forall k :: k in next.core.drafts ==> next.core.drafts[k] == b.core.drafts[k])
  {
    RetainFrames(b.subscribers[i].queue, work, other);
    var purge := Purge(work, DraftIdsOf(b.core.drafts, work));
    HearTwo(b.subscribers[i], purge, purge, size);
  }

  // ----- closing -----

  /** Closing empties every queue and forgets every draft. */
  lemma CloseClears(b: Broker, size: Event -> nat, i: nat)
    requires i in b.subscribers
    ensures var next := Step(b, CloseAdmission, size);
            && !next.core.accepting && next.core.drafts == map[]
            && i in next.subscribers && next.subscribers[i] == b.subscribers[i].(queue := [], eligible := map[])
  {
    HearTwo(b.subscribers[i], Clear, Clear, size);
  }

  /** Admission is open exactly until the broker is closed, and the closed flag is up exactly once it was raised. */
  lemma {:induction false} AdmissionExact(core: Core, ops: seq<Op>, size: Event -> nat)
    ensures var last := CoreAfter(core, ops, size);
            && last.accepting == (core.accepting && CloseAdmission !in ops)
            && last.closed == (core.closed || RaiseClosed in ops)
    decreases |ops|
  {
    if ops != [] {
      AdmissionExact(Effects(core, ops[0], size).core, ops[1..], size);
      CallAdmission(core, ops[0], size);
      assert ops == [ops[0]] + ops[1..];
    }
  }

  lemma CallAdmission(core: Core, op: Op, size: Event -> nat)
    ensures var next := Effects(core, op, size).core;
            && next.accepting == (core.accepting && op != CloseAdmission) && next.closed == (core.closed || op == RaiseClosed)
    ensures core.closed || !core.accepting ==> forall a :: a in Effects(core, op, size).says ==> !a.Begin? && !a.Extend?
    ensures op.Offer? ==> (Effects(core, op, size).exposed <==> core.accepting && !core.closed)
  {
  }

  /** Once the broker is closed or its flag is up, no episode begins or grows any more. */
  lemma {:induction false} ClosedSilent(core: Core, ops: seq<Op>, size: Event -> nat, e: Event)
    requires (core.closed || !core.accepting) && e in Told(core, ops, size)
    ensures e.payload.Abandoned?
    decreases |ops|
  {
    var effect := Effects(core, ops[0], size);
    CallAdmission(core, ops[0], size);
    if e in Spoken(effect.says) {
      EffectsWellFormed(core, ops[0], size);
      OnlyEnds(effect.says, e);
    } else {
      ClosedSilent(effect.core, ops[1..], size, e);
    }
  }

  lemma {:induction false} OnlyEnds(says: seq<Broadcast>, e: Event)
    requires (forall a :: a in says ==> WellFormed(a) && !a.Begin? && !a.Extend?) && e in Spoken(says)
    ensures e.payload.Abandoned?
    decreases |says|
  {
    assert says[0] in says;
    if says[0].End? && e == says[0].event {
    } else {
      OnlyEnds(says[1..], e);
    }
  }

  /** And nobody joins any more. */
  lemma {:induction false} ClosedJoins(b: Broker, ops: seq<Op>, size: Event -> nat)
    requires !b.core.accepting
    ensures Run(b, ops, size).subscribers.Keys <= b.subscribers.Keys && Run(b, ops, size).nextId == b.nextId
    decreases |ops|
  {
    if ops != [] {
      StepCore(b, ops[0], size);
      CallAdmission(b.core, ops[0], size);
      ClosedJoins(Step(b, ops[0], size), ops[1..], size);
    }
  }
}
