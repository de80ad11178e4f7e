/**
 * One WebSocket connection: replay up to a high water, the `sync.complete` handoff, then live
 * scans and drafts. The store, the socket and the clock are an environment indexed by time, so a
 * run may meet any failure, lost hint or delay.
 */
module ReplayConnection {
  import opened Prelude
  import opened PublicJournal
  import opened DraftFilter
  import DraftEvents

  datatype StoreFate = Answers | Errs | TimesOut | Interrupted

  /** A send that fails or is interrupted may still have reached the peer. */
  datatype SendFate = Arrives | Fails(reached: bool) | Interrupts(reached: bool)

  datatype Env = Env(
    journal: nat -> seq<Row>,
    project: Row -> Shape,
    encodes: DurableEvent -> bool,
    fits: DraftEvents.Event -> bool,
    store: nat -> StoreFate,
    send: nat -> SendFate)

  datatype FlowError = Shutdown | Failed

  datatype Fault = StorageFailure | EncodingFailure

  /** The journal is sorted and only ever grows at its end. */
  ghost predicate Lawful(env: Env) {
    && Faithful(env.project)
    && (forall t: nat :: Sorted(env.journal(t)))
    && (forall t: nat :: env.journal(t) <= env.journal(t + 1))
  }

  lemma {:induction false} JournalGrows(env: Env, t: nat, u: nat)
    requires Lawful(env) && t <= u
    ensures env.journal(t) <= env.journal(u)
    decreases u - t
  {
    if t < u {
      JournalGrows(env, t, u - 1);
      assert env.journal(u - 1) <= env.journal(u - 1 + 1);
    }
  }

  lemma HighWaterGrows(env: Env, t: nat, u: nat)
    requires Lawful(env) && t <= u
    ensures HighWater(env.journal(t)) <= HighWater(env.journal(u))
  {
    JournalGrows(env, t, u);
    var j, k := env.journal(t), env.journal(u);
    if j != [] {
      assert k[|j| - 1] == j[|j| - 1];
    }
  }

  /** The public events of a range at or below a past high water are the same at any later time. */
  lemma PublicStable(env: Env, t: nat, u: nat, a: nat, b: nat)
    requires Lawful(env) && t <= u && b <= HighWater(env.journal(t))
    ensures Public(env.journal(t), env.project, a, b) == Public(env.journal(u), env.project, a, b)
  {
    JournalGrows(env, t, u);
    if a <= b {
      SelectStable(env.journal(t), env.journal(u), a, b);
    } else {
      UptoMonotone(env.journal(t), b, a);
      UptoMonotone(env.journal(u), b, a);
    }
  }

  // ----- frames -----

  function Frames(events: seq<DurableEvent>): seq<Frame> {
    seq(|events|, i requires 0 <= i < |events| => Durable(events[i]))
  }

  /** The durable events among some frames. */
  function Durables(sent: seq<Frame>): seq<DurableEvent> {
    if sent == [] then []
    else
      var k := |sent| - 1;
      if sent[k].Durable? then Durables(sent[..k]) + [sent[k].event] else Durables(sent[..k])
  }

  lemma {:induction false} DurablesConcat(x: seq<Frame>, y: seq<Frame>)
    ensures Durables(x + y) == Durables(x) + Durables(y)
  {
    if y == [] {
      assert x + y == x;
    } else {
      var k := |y| - 1;
      assert (x + y)[..|x + y| - 1] == x + y[..k];
      DurablesConcat(x, y[..k]);
    }
  }

  lemma {:induction false} DurablesFrames(events: seq<DurableEvent>)
    ensures Durables(Frames(events)) == events
  {
    if events != [] {
      var k := |events| - 1;
      assert Frames(events)[..k] == Frames(events[..k]);
      DurablesFrames(events[..k]);
    }
  }

  lemma FramesConcat(x: seq<DurableEvent>, y: seq<DurableEvent>)
    ensures Frames(x + y) == Frames(x) + Frames(y)
  {
  }

  /** The works some events are the last word on, in order. */
  function Finals(events: seq<DurableEvent>): seq<Work> {
    if events == [] then []
    else
      var k := |events| - 1;
      match events[k].Finalizes()
      case None => Finals(events[..k])
      case Some(work) => Finals(events[..k]) + [work]
  }

  ghost predicate AllDurable(frames: seq<Frame>) {
    forall i :: 0 <= i < |frames| ==> frames[i].Durable?
  }

  lemma {:induction false} FinalsConcat(x: seq<DurableEvent>, y: seq<DurableEvent>)
    ensures Finals(x + y) == Finals(x) + Finals(y)
  {
    if y == [] {
      assert x + y == x;
    } else {
      var k := |y| - 1;
      assert (x + y)[..|x + y| - 1] == x + y[..k];
      FinalsConcat(x, y[..k]);
    }
  }

  lemma FinalsNext(events: seq<DurableEvent>, k: nat)
    requires k < |events|
    ensures Finals(events[..k + 1]) ==
            Finals(events[..k]) + if events[k].Finalizes().Some? then [events[k].Finalizes().value] else []
  {
    assert events[..k + 1][..k] == events[..k];
  }

  lemma SelectPast(j: seq<Row>, a: nat, b: nat)
    requires Sorted(j) && b <= a
    ensures Select(j, a, b) == []
  {
    UptoMonotone(j, b, a);
  }

  /** What a connection has sent, what its filter was fed, and the last words it passed on. */
  datatype Trail = Trail(sent: seq<Frame>, fed: seq<Frame>, finalized: seq<Work>)

  /** Since `was` exactly the events `done` were fed and sent, and their last words passed on. */
  ghost predicate Sent(was: Trail, done: seq<DurableEvent>, now: Trail) {
    && now.sent == was.sent + Frames(done) && now.fed == was.fed + Frames(done)
    && now.finalized == was.finalized + Finals(done)
  }

  lemma SentMore(was: Trail, x: seq<DurableEvent>, mid: Trail, y: seq<DurableEvent>, now: Trail)
    requires Sent(was, x, mid) && Sent(mid, y, now)
    ensures Sent(was, x + y, now)
  {
    FramesConcat(x, y);
    FinalsConcat(x, y);
    Associates(was.sent, Frames(x), Frames(y));
    Associates(was.fed, Frames(x), Frames(y));
  }

  lemma SentNext(was: Trail, events: seq<DurableEvent>, k: nat, now: Trail)
    requires k < |events| && Sent(was, events[..k], now)
    ensures var f := [Durable(events[k])];
            && Sent(was, events[..k + 1], Trail(now.sent + f, now.fed + f, now.finalized + FinalOf(Durable(events[k]))))
            && now.sent + f <= was.sent + Frames(events)
  {
    FinalsNext(events, k);
    assert Frames(events[..k + 1]) == Frames(events[..k]) + [Durable(events[k])];
    assert Frames(events[..k + 1]) <= Frames(events);
  }

  lemma SentPart(was: seq<Frame>, x: seq<DurableEvent>, mid: seq<Frame>, y: seq<DurableEvent>, sent: seq<Frame>)
    requires mid == was + Frames(x) && mid <= sent <= mid + Frames(y)
    ensures was <= sent <= was + Frames(x + y)
  {
  }

  // ----- why a connection ends -----

  /** The server's shutdown interrupts what the connection does at `t`. */
  predicate Halts(env: Env, t: nat) {
    env.store(t) == Interrupted || env.send(t).Interrupts?
  }

  /** The store or the socket fails at `t`. */
  predicate Troubles(env: Env, t: nat) {
    env.store(t) == Errs || env.store(t) == TimesOut || env.send(t).Fails?
  }

  /** Some row cannot be published, or some event or draft cannot be encoded. */
  ghost predicate Defective(env: Env) {
    || (exists row :: env.project(row) == Broken) || (exists event :: !env.encodes(event))
    || (exists draft :: !env.fits(draft))
  }

  /** What makes a flow stop with an error between `from` and `to`. */
  ghost predicate Blamed(env: Env, from: nat, to: nat, e: FlowError) {
    match e
    case Shutdown => exists t :: from <= t < to && Halts(env, t)
    case Failed => Defective(env) || exists t :: from <= t < to && Troubles(env, t)
  }

  lemma BlamedWider(env: Env, a: nat, b: nat, c: nat, d: nat, e: FlowError)
    requires a <= b && c <= d && Blamed(env, b, c, e)
    ensures Blamed(env, a, d, e)
  {
    if e == Shutdown {
      var t :| b <= t < c && Halts(env, t);
      assert a <= t < d && Halts(env, t);
    } else if !Defective(env) {
      var t :| b <= t < c && Troubles(env, t);
      assert a <= t < d && Troubles(env, t);
    }
  }

  // ----- what a connection delivers -----

  ghost predicate NoSync(frames: seq<Frame>) {
    forall i :: 0 <= i < |frames| ==> !frames[i].Sync?
  }

  /** The frames up to and including the handoff. */
  function Opening(j: seq<Row>, project: Row -> Shape, after: nat, highWater: nat): seq<Frame> {
    Frames(Public(j, project, after, highWater)) + [Sync(highWater)]
  }

  /** The frames after the handoff, when everything public up to `scanned` has been sent. */
  ghost predicate Tail(env: Env, t: nat, highWater: nat, scanned: nat, tail: seq<Frame>) {
    && NoSync(tail) && highWater <= scanned <= HighWater(env.journal(t))
    && Durables(tail) == Public(env.journal(t), env.project, highWater, scanned)
  }

  /**
   * What has been delivered by time `t`: an initial part of the replay, or all of it, then
   * `sync.complete`, then an initial part of the later public events with drafts between them.
   */
  ghost predicate Delivered(env: Env, t: nat, after: nat, highWater: nat, sent: seq<Frame>) {
    var j := env.journal(t);
    || sent <= Frames(Public(j, env.project, after, highWater))
    || (&& Opening(j, env.project, after, highWater) <= sent
        && var tail := sent[|Opening(j, env.project, after, highWater)|..];
        NoSync(tail) && Durables(tail) <= Public(j, env.project, highWater, HighWater(j)))
  }

  /**
   * The durable events sent are an initial segment of `due` and then `later`, in order and without
   * repeats, and any `sync.complete` is the only one, carries the high water, and stands exactly
   * between the two.
   */
  ghost predicate InOrder(due: seq<DurableEvent>, later: seq<DurableEvent>, highWater: nat, sent: seq<Frame>) {
    && Durables(sent) <= due + later && Rising(Durables(sent))
    && forall i :: 0 <= i < |sent| && sent[i].Sync? ==> SyncAt(due, later, highWater, sent, i)
  }

  ghost predicate SyncAt(due: seq<DurableEvent>, later: seq<DurableEvent>, highWater: nat, sent: seq<Frame>, i: nat)
    requires i < |sent| && sent[i].Sync?
  {
    && sent[i].cursor == highWater && NoSync(sent[..i]) && NoSync(sent[i + 1..])
    && Durables(sent[..i]) == due && Durables(sent[i + 1..]) <= later
  }

  lemma InOrderReplay(due: seq<DurableEvent>, later: seq<DurableEvent>, highWater: nat, sent: seq<Frame>)
    requires sent <= Frames(due) && Rising(due + later)
    ensures InOrder(due, later, highWater, sent)
  {
    DurablesFrames(due);
    DurablesPrefix(sent, Frames(due));
    RisingPrefix(Durables(sent), due + later);
  }

  lemma RisingPrefix(x: seq<DurableEvent>, y: seq<DurableEvent>)
    requires Rising(y) && x <= y
    ensures Rising(x)
  {
  }

  lemma InOrderTail(due: seq<DurableEvent>, later: seq<DurableEvent>, highWater: nat, tail: seq<Frame>)
    requires NoSync(tail) && Durables(tail) <= later && Rising(due + later)
    ensures InOrder(due, later, highWater, Frames(due) + [Sync(highWater)] + tail)
  {
    OpeningSplits(due, highWater, tail);
    assert due + Durables(tail) <= due + later;
    RisingPrefix(due + Durables(tail), due + later);
  }

  /** The public events above `after`, split at the high water. */
  lemma PublicHalves(j: seq<Row>, project: Row -> Shape, after: nat, highWater: nat)
    requires Sorted(j) && Faithful(project) && after <= highWater <= HighWater(j)
    ensures var due, later := Public(j, project, after, highWater), Public(j, project, highWater, HighWater(j));
            && due + later == Public(j, project, after, HighWater(j)) && Rising(due + later)
            && (forall n :: 0 <= n < |due| ==> due[n].cursor <= highWater)
            && (forall n :: 0 <= n < |later| ==> highWater < later[n].cursor)
  {
    PublicSplit(j, project, after, highWater, HighWater(j));
    PublicRising(j, project, after, HighWater(j));
    PublicRising(j, project, after, highWater);
    PublicRising(j, project, highWater, HighWater(j));
  }

  lemma InOrderEither(due: seq<DurableEvent>, later: seq<DurableEvent>, highWater: nat, sent: seq<Frame>)
    requires Rising(due + later)
    requires var opening := Frames(due) + [Sync(highWater)];
             || sent <= Frames(due)
             || (opening <= sent && NoSync(sent[|opening|..]) && Durables(sent[|opening|..]) <= later)
    ensures InOrder(due, later, highWater, sent)
  {
    if sent <= Frames(due) {
      InOrderReplay(due, later, highWater, sent);
    } else {
      var opening := Frames(due) + [Sync(highWater)];
      InOrderTail(due, later, highWater, sent[|opening|..]);
      assert sent == opening + sent[|opening|..];
    }
  }

  /** What `Delivered` promises a client of the public events above `after`, split at the high water. */
  lemma DeliveredInOrder(env: Env, t: nat, after: nat, highWater: nat, sent: seq<Frame>)
    requires Lawful(env) && after <= highWater <= HighWater(env.journal(t)) && Delivered(env, t, after, highWater, sent)
    ensures var j := env.journal(t);
            var due, later := Public(j, env.project, after, highWater), Public(j, env.project, highWater, HighWater(j));
            && due + later == Public(j, env.project, after, HighWater(j))
            && (forall n :: 0 <= n < |due| ==> due[n].cursor <= highWater)
            && (forall n :: 0 <= n < |later| ==> highWater < later[n].cursor)
            && InOrder(due, later, highWater, sent)
  {
    var j := env.journal(t);
    var due, later := Public(j, env.project, after, highWater), Public(j, env.project, highWater, HighWater(j));
    PublicHalves(j, env.project, after, highWater);
    InOrderEither(due, later, highWater, sent);
  }

  lemma OpeningDurables(due: seq<DurableEvent>, highWater: nat, tail: seq<Frame>)
    ensures Durables(Frames(due) + [Sync(highWater)] + tail) == due + Durables(tail)
  {
    DurablesConcat(Frames(due) + [Sync(highWater)], tail);
    DurablesConcat(Frames(due), [Sync(highWater)]);
    DurablesFrames(due);
    assert Durables([Sync(highWater)]) == [];
  }

  lemma OpeningSplits(due: seq<DurableEvent>, highWater: nat, tail: seq<Frame>)
    requires NoSync(tail)
    ensures var sent := Frames(due) + [Sync(highWater)] + tail;
            && Durables(sent) == due + Durables(tail)
            && (forall i :: 0 <= i < |sent| && sent[i].Sync? ==> i == |due|)
            && sent[|due|] == Sync(highWater) && sent[..|due|] == Frames(due) && sent[|due| + 1..] == tail
            && Durables(sent[..|due|]) == due
  {
    OpeningDurables(due, highWater, tail);
    DurablesFrames(due);
  }

  lemma TailLater(env: Env, t: nat, u: nat, highWater: nat, scanned: nat, tail: seq<Frame>)
    requires Lawful(env) && t <= u && Tail(env, t, highWater, scanned, tail)
    ensures Tail(env, u, highWater, scanned, tail)
  {
    HighWaterGrows(env, t, u);
    PublicStable(env, t, u, highWater, scanned);
  }

  lemma TailScanned(env: Env, t: nat, highWater: nat, scanned: nat, reached: nat, tail: seq<Frame>)
    requires Lawful(env) && Tail(env, t, highWater, scanned, tail) && scanned <= reached <= HighWater(env.journal(t))
    ensures Tail(env, t, highWater, reached, tail + Frames(Public(env.journal(t), env.project, scanned, reached)))
  {
    var due := Public(env.journal(t), env.project, scanned, reached);
    PublicSplit(env.journal(t), env.project, highWater, scanned, reached);
    DurablesConcat(tail, Frames(due));
    DurablesFrames(due);
  }

  lemma {:induction false} DurablesPrefix(x: seq<Frame>, y: seq<Frame>)
    requires x <= y
    ensures Durables(x) <= Durables(y)
  {
    assert y == x + y[|x|..];
    DurablesConcat(x, y[|x|..]);
  }

  /** Part of a tail is part of what is public. */
  lemma TailPart(env: Env, t: nat, highWater: nat, scanned: nat, tail: seq<Frame>, part: seq<Frame>)
    requires Lawful(env) && Tail(env, t, highWater, scanned, tail) && part <= tail
    ensures NoSync(part) && Durables(part) <= Public(env.journal(t), env.project, highWater, HighWater(env.journal(t)))
  {
    DurablesPrefix(part, tail);
    PublicSplit(env.journal(t), env.project, highWater, scanned, HighWater(env.journal(t)));
  }

  /** What was sent beyond `was`. */
  lemma Beyond(opening: seq<Frame>, tail: seq<Frame>, frames: seq<Frame>, sent: seq<Frame>) returns (part: seq<Frame>)
    requires opening + tail <= sent <= opening + tail + frames
    ensures part <= frames && sent == opening + (tail + part)
    ensures sent == opening + tail + frames ==> part == frames
  {
    part := sent[|opening + tail|..];
  }

  lemma CutLegible(opening: seq<Frame>, tail: seq<Frame>, events: seq<DurableEvent>, part: seq<Frame>)
    requires Legible(opening + tail) && part <= Frames(events)
    ensures Legible(opening + (tail + part))
  {
    LegibleGrows(opening + tail, part);
    assert opening + tail + part == opening + (tail + part);
  }

  /** After a scan that fails part of the way. */
  lemma ScanCut(env: Env, t: nat, u: nat, highWater: nat, scanned: nat, reached: nat, tail: seq<Frame>,
                part: seq<Frame>)
    requires Lawful(env) && t <= u && Tail(env, t, highWater, scanned, tail)
    requires scanned <= reached <= HighWater(env.journal(t))
    requires part <= Frames(Public(env.journal(t), env.project, scanned, reached))
    ensures NoSync(tail + part)
    ensures Durables(tail + part) <= Public(env.journal(u), env.project, highWater, HighWater(env.journal(u)))
  {
    var frames := Frames(Public(env.journal(t), env.project, scanned, reached));
    TailScanned(env, t, highWater, scanned, reached, tail);
    TailLater(env, t, u, highWater, reached, tail + frames);
    assert tail + part <= tail + frames;
    TailPart(env, u, highWater, reached, tail + frames, tail + part);
  }

  /** Everything public at time `t` above `from` has been sent. */
  ghost predicate Sends(env: Env, t: nat, from: nat, sent: seq<Frame>) {
    Public(env.journal(t), env.project, from, HighWater(env.journal(t))) <= Durables(sent)
  }

  lemma TailSends(env: Env, t: nat, u: nat, highWater: nat, scanned: nat, tail: seq<Frame>)
    requires Lawful(env) && t <= u && Tail(env, u, highWater, scanned, tail) && HighWater(env.journal(t)) <= scanned
    ensures Sends(env, t, highWater, tail)
  {
    var end := HighWater(env.journal(t));
    PublicStable(env, t, u, highWater, end);
    if highWater <= end {
      PublicSplit(env.journal(u), env.project, highWater, end, scanned);
    } else {
      SelectPast(env.journal(t), highWater, end);
    }
  }

  /** After the handoff, what the tail has sent completes what the replay sent. */
  lemma OpeningSends(env: Env, t: nat, u: nat, after: nat, highWater: nat, tail: seq<Frame>)
    requires Lawful(env) && t <= u && after <= highWater <= HighWater(env.journal(t)) && Sends(env, u, highWater, tail)
    ensures Sends(env, u, after, Opening(env.journal(t), env.project, after, highWater) + tail)
  {
    var due := Public(env.journal(t), env.project, after, highWater);
    HighWaterGrows(env, t, u);
    PublicStable(env, t, u, after, highWater);
    PublicSplit(env.journal(u), env.project, after, highWater, HighWater(env.journal(u)));
    OpeningDurables(due, highWater, tail);
  }

  lemma TailLive(env: Env, t: nat, highWater: nat, scanned: nat, tail: seq<Frame>, e: DraftEvents.Event)
    requires Tail(env, t, highWater, scanned, tail)
    ensures Tail(env, t, highWater, scanned, tail + [Live(e)])
  {
  }

  lemma NothingAgrees(world: DraftEvents.World)
    ensures Agrees(world, map[], []) && Legible([])
  {
  }

  lemma ReplayLegible(due: seq<DurableEvent>, sent: seq<Frame>)
    requires sent <= Frames(due)
    ensures Legible(sent)
  {
    assert [] + sent == sent;
    assert Legible([]);
    LegibleGrows([], sent);
  }

  lemma DeliveredReplay(env: Env, t: nat, u: nat, after: nat, highWater: nat, sent: seq<Frame>)
    requires Lawful(env) && t <= u && highWater <= HighWater(env.journal(t))
    requires sent <= Frames(Public(env.journal(t), env.project, after, highWater))
    ensures Delivered(env, u, after, highWater, sent) && Legible(sent)
  {
    PublicStable(env, t, u, after, highWater);
    ReplayLegible(Public(env.journal(t), env.project, after, highWater), sent);
  }

  lemma DeliveredTail(env: Env, t: nat, u: nat, after: nat, highWater: nat, sent: seq<Frame>, tail: seq<Frame>)
    requires Lawful(env) && t <= u && highWater <= HighWater(env.journal(t))
    requires sent == Opening(env.journal(t), env.project, after, highWater) + tail && NoSync(tail)
    requires Durables(tail) <= Public(env.journal(u), env.project, highWater, HighWater(env.journal(u)))
    ensures Delivered(env, u, after, highWater, sent)
  {
    PublicStable(env, t, u, after, highWater);
    var opening := Opening(env.journal(t), env.project, after, highWater);
    assert sent[|opening|..] == tail;
  }

  lemma TailStarts(env: Env, t: nat, u: nat, highWater: nat)
    requires Lawful(env) && t <= u && highWater <= HighWater(env.journal(t))
    ensures Tail(env, u, highWater, highWater, [])
  {
    HighWaterGrows(env, t, u);
    SelectPast(env.journal(u), highWater, highWater);
  }

  /** After sending a draft, whether or not the send was seen to succeed. */
  lemma DraftSent(env: Env, t: nat, u: nat, opening: seq<Frame>, highWater: nat, scanned: nat, tail: seq<Frame>,
                  e: DraftEvents.Event, sent: seq<Frame>) returns (now: seq<Frame>)
    requires Lawful(env) && t <= u && Tail(env, t, highWater, scanned, tail)
    requires opening + tail <= sent <= opening + tail + [Live(e)]
    requires Legible(opening + tail) && Legible(opening + tail + [Live(e)])
    ensures sent == opening + now && Tail(env, u, highWater, scanned, now) && Legible(sent)
    ensures Durables(now) <= Public(env.journal(u), env.project, highWater, HighWater(env.journal(u)))
  {
    var part := Beyond(opening, tail, [Live(e)], sent);
    TailLater(env, t, u, highWater, scanned, tail);
    TailLive(env, u, highWater, scanned, tail, e);
    now := tail + part;
    assert part == [] || part == [Live(e)];
    assert part == [] ==> now == tail;
    assert opening + (tail + part) == opening + tail + part;
    TailPart(env, u, highWater, scanned, now, now);
  }

  /** A page read later is the first part of what was to be sent. */
  lemma PagePart(env: Env, start: nat, now: nat, scanned: nat, next: nat, through: nat)
    requires Lawful(env) && start <= now && scanned <= next <= through <= HighWater(env.journal(start))
    ensures Public(env.journal(now), env.project, scanned, next) == Public(env.journal(start), env.project, scanned, next)
    ensures Frames(Public(env.journal(start), env.project, scanned, next)) <=
            Frames(Public(env.journal(start), env.project, scanned, through))
  {
    PublicStable(env, start, now, scanned, next);
    PublicSplit(env.journal(start), env.project, scanned, next, through);
    FramesConcat(Public(env.journal(start), env.project, scanned, next), Public(env.journal(start), env.project, next, through));
  }

  // ----- what a connection's filter was fed -----

  /** Only durable events and the handoff were fed since. */
  ghost predicate Grown(was: seq<Frame>, fed: seq<Frame>) {
    was <= fed && SameDrafts(was, fed)
  }

  /** How often a work was finalized. */
  function Times(finalized: seq<Work>, work: Work): nat {
    if finalized == [] then 0
    else Times(finalized[..|finalized| - 1], work) + if finalized[|finalized| - 1] == work then 1 else 0
  }

  /** How many last words on a work are among some frames. */
  function LastWords(frames: seq<Frame>, work: Work): nat {
    if frames == [] then 0 else LastWords(frames[..|frames| - 1], work) + LastWord(frames[|frames| - 1], work)
  }

  function LastWord(f: Frame, work: Work): nat {
    if f.Durable? && f.event.Finalizes() == Some(work) then 1 else 0
  }

  /** Every last word fed was passed on to the broker, once. */
  ghost predicate Paired(fed: seq<Frame>, finalized: seq<Work>) {
    forall work :: PairedOn(fed, finalized, work)
  }

  ghost predicate PairedOn(fed: seq<Frame>, finalized: seq<Work>, work: Work) {
    Times(finalized, work) == LastWords(fed, work)
  }

  function FinalOf(f: Frame): seq<Work> {
    if f.Durable? && f.event.Finalizes().Some? then [f.event.Finalizes().value] else []
  }

  lemma PairedNext(fed: seq<Frame>, finalized: seq<Work>, f: Frame)
    requires Paired(fed, finalized)
    ensures Paired(fed + [f], finalized + FinalOf(f))
  {
    forall work
      ensures PairedOn(fed + [f], finalized + FinalOf(f), work)
    {
      assert PairedOn(fed, finalized, work);
      assert (fed + [f])[..|fed|] == fed;
      if FinalOf(f) == [] {
        assert finalized + FinalOf(f) == finalized;
      } else {
        assert (finalized + FinalOf(f))[..|finalized|] == finalized;
      }
    }
  }

  lemma GrownNext(was: seq<Frame>, fed: seq<Frame>, f: Frame)
    requires Grown(was, fed) && !f.Live?
    ensures Grown(was, fed + [f])
  {
    forall d
      ensures SameOn(was, fed + [f], d)
    {
      assert SameOn(was, fed, d);
      EventsNext(fed, f, d);
    }
  }

  lemma GrownTwice(x: seq<Frame>, y: seq<Frame>, z: seq<Frame>)
    requires Grown(x, y) && Grown(y, z)
    ensures Grown(x, z)
  {
    SameTwice(x, y, z);
  }

  datatype Message = TextOrBinary | CloseOrEnd | TransportError | PingOrPong

  datatype Hint = Cursor(value: nat) | Lagged | NoHint

  /** A hint beyond the replay, or the loss of some, calls for a live scan. */
  predicate Calls(hint: Hint, highWater: nat) {
    hint.Lagged? || (hint.Cursor? && hint.value > highWater)
  }

  /** What the live loop may be woken by; hints carry nothing the loop relies on. */
  datatype Signal =
    | ShutdownChanged(latched: bool)
    | Incoming(message: Message)
    | HintReceived
    | HintsClosed
    | Tick
    | DraftReceived(event: DraftEvents.Event)
    | DraftOverloaded
    | DraftClosed

  /** A signal, and when it arrives. */
  datatype Arrival = Arrival(at: nat, signal: Signal)

  /** The signals that make the live loop scan. */
  predicate Scans(s: Signal) {
    s == HintReceived || s == Tick
  }

  /** The event of one draft that a signal brings. */
  function Brought(s: Signal, d: DraftEvents.Draft): seq<DraftEvents.Event> {
    if s.DraftReceived? && s.event.Of(d) then [s.event] else []
  }

  /** The events of one draft that the first `n` signals bring, in order. */
  function BroughtBy(signals: seq<Arrival>, n: nat, d: DraftEvents.Draft): seq<DraftEvents.Event>
    requires n <= |signals|
  {
    if n == 0 then [] else BroughtBy(signals, n - 1, d) + Brought(signals[n - 1].signal, d)
  }

  /** Serving a signal fed the draft it brought and no other. */
  ghost predicate Brings(was: seq<Frame>, s: Signal, fed: seq<Frame>) {
    forall d :: BringsOn(was, s, fed, d)
  }

  ghost predicate BringsOn(was: seq<Frame>, s: Signal, fed: seq<Frame>, d: DraftEvents.Draft) {
    EventsOf(fed, d) == EventsOf(was, d) + Brought(s, d)
  }

  /** Serving `n` signals fed the drafts they brought and no other. */
  ghost predicate BringsAll(was: seq<Frame>, signals: seq<Arrival>, n: nat, fed: seq<Frame>)
    requires n <= |signals|
  {
    forall d :: BringsAllOn(was, signals, n, fed, d)
  }

  ghost predicate BringsAllOn(was: seq<Frame>, signals: seq<Arrival>, n: nat, fed: seq<Frame>, d: DraftEvents.Draft)
    requires n <= |signals|
  {
    EventsOf(fed, d) == EventsOf(was, d) + BroughtBy(signals, n, d)
  }

  lemma BringsNone(signals: seq<Arrival>, fed: seq<Frame>)
    ensures BringsAll(fed, signals, 0, fed)
  {
  }

  lemma BringsNext(was: seq<Frame>, signals: seq<Arrival>, n: nat, mid: seq<Frame>, fed: seq<Frame>)
    requires n < |signals| && BringsAll(was, signals, n, mid) && Brings(mid, signals[n].signal, fed)
    ensures BringsAll(was, signals, n + 1, fed)
  {
    var m := n + 1;
    forall d
      ensures BringsAllOn(was, signals, m, fed, d)
    {
      assert BringsAllOn(was, signals, n, mid, d) && BringsOn(mid, signals[n].signal, fed, d);
      Associates(EventsOf(was, d), BroughtBy(signals, n, d), Brought(signals[n].signal, d));
    }
  }

  lemma BringsFrom(was: seq<Frame>, mid: seq<Frame>, signals: seq<Arrival>, n: nat, fed: seq<Frame>)
    requires n <= |signals| && Grown(was, mid) && BringsAll(mid, signals, n, fed)
    ensures BringsAll(was, signals, n, fed)
  {
    forall d
      ensures BringsAllOn(was, signals, n, fed, d)
    {
      assert SameOn(was, mid, d) && BringsAllOn(mid, signals, n, fed, d);
    }
  }

  lemma BringsOne(was: seq<Frame>, s: Signal, fed: seq<Frame>)
    requires if s.DraftReceived? then fed == was + [Live(s.event)] else Grown(was, fed)
    ensures Brings(was, s, fed)
  {
    forall d
      ensures BringsOn(was, s, fed, d)
    {
      if s.DraftReceived? {
        EventsNext(was, Live(s.event), d);
      } else {
        assert SameOn(was, fed, d);
      }
    }
  }

  /** Some of the first `n` signals makes the loop scan. */
  ghost predicate Stirs(signals: seq<Arrival>, n: nat)
    requires n <= |signals|
  {
    exists k :: 0 <= k < n && ScansAt(signals, k)
  }

  predicate ScansAt(signals: seq<Arrival>, k: nat)
    requires k < |signals|
  {
    Scans(signals[k].signal)
  }

  /** None of the first `n` signals that make the loop scan arrives after `t`. */
  ghost predicate StirredBy(signals: seq<Arrival>, n: nat, t: nat)
    requires n <= |signals|
  {
    forall k :: 0 <= k < n && ScansAt(signals, k) ==> signals[k].at <= t
  }

  lemma StirsNext(signals: seq<Arrival>, n: nat, t: nat, u: nat)
    requires n < |signals| && StirredBy(signals, n, t) && t <= u
    requires Scans(signals[n].signal) ==> signals[n].at <= u
    ensures StirredBy(signals, n + 1, u)
    ensures Stirs(signals, n + 1) <==> Stirs(signals, n) || Scans(signals[n].signal)
  {
    assert ScansAt(signals, n) <==> Scans(signals[n].signal);
  }

  /** Some hint, not consumed by the replay, calls for a live scan. */
  ghost predicate Called(hints: seq<Hint>, highWater: nat) {
    exists i :: 0 <= i < |hints| && Calls(hints[i], highWater) && forall j :: 0 <= j < i ==> hints[j] != NoHint
  }

  ghost predicate AllDraftsOwned(world: DraftEvents.World, signals: seq<Arrival>) {
    forall k :: 0 <= k < |signals| ==> OwnedAt(world, signals, k)
  }

  ghost predicate OwnedAt(world: DraftEvents.World, signals: seq<Arrival>, k: nat)
    requires k < |signals|
  {
    signals[k].signal.DraftReceived? ==> Owned(world, signals[k].signal.event)
  }

  datatype End =
    | ServerShutdown | ReplayFailed | SendFailed | LiveScanFailed | PolicyViolation | PeerClosed | TransportFailed
    | SlowConsumer | DeliveryOverloaded | Listening

  /** How a signal by itself ends a connection, if it does. */
  function Verdict(s: Signal): Option<End> {
    match s
    case ShutdownChanged(latched) => if latched then Some(ServerShutdown) else None
    case Incoming(message) =>
      (match message
       case TextOrBinary => Some(PolicyViolation)
       case CloseOrEnd => Some(PeerClosed)
       case TransportError => Some(TransportFailed)
       case PingOrPong => None)
    case DraftOverloaded => Some(DeliveryOverloaded)
    case DraftClosed => Some(ServerShutdown)
    case _ => None
  }

  /** None of the first `n` signals ends a connection by itself. */
  ghost predicate Calm(signals: seq<Arrival>, n: nat)
    requires n <= |signals|
  {
    forall k :: 0 <= k < n ==> Harmless(signals, k)
  }

  predicate Harmless(signals: seq<Arrival>, k: nat)
    requires k < |signals|
  {
    Verdict(signals[k].signal) == None
  }

  /** A live scan ended the connection. */
  ghost predicate ScanBlamed(env: Env, from: nat, to: nat, end: End) {
    || (end == ServerShutdown && Blamed(env, from, to, Shutdown))
    || (end == LiveScanFailed && Blamed(env, from, to, Failed))
  }

  /** A draft that could not be sent ended the connection. */
  ghost predicate DraftBlamed(env: Env, from: nat, to: nat, end: End) {
    end == SlowConsumer && (Blamed(env, from, to, Shutdown) || Blamed(env, from, to, Failed))
  }

  /** A signal ends a connection by itself, or by what failed while it was served. */
  ghost predicate SignalEnds(env: Env, from: nat, to: nat, s: Signal, end: End) {
    match Verdict(s)
    case Some(verdict) => end == verdict
    case None =>
      (Scans(s) && ScanBlamed(env, from, to, end)) || (s.DraftReceived? && DraftBlamed(env, from, to, end))
  }

  lemma ScanBlamedWider(env: Env, a: nat, b: nat, c: nat, d: nat, end: End)
    requires a <= b && c <= d && ScanBlamed(env, b, c, end)
    ensures ScanBlamed(env, a, d, end)
  {
    BlamedWider(env, a, b, c, d, if end == ServerShutdown then Shutdown else Failed);
  }

  lemma SignalEndsWider(env: Env, a: nat, b: nat, c: nat, d: nat, s: Signal, end: End)
    requires a <= b && c <= d && SignalEnds(env, b, c, s, end)
    ensures SignalEnds(env, a, d, s, end)
  {
    if Verdict(s) == None {
      if Scans(s) && ScanBlamed(env, b, c, end) {
        ScanBlamedWider(env, a, b, c, d, end);
      } else {
        BlamedWider(env, a, b, c, d, if Blamed(env, b, c, Shutdown) then Shutdown else Failed);
      }
    }
  }

  /** Why the live loop ended with the last signal it served, or that it goes on because nothing ended it. */
  ghost predicate LoopTold(env: Env, from: nat, to: nat, signals: seq<Arrival>, served: nat, end: End) {
    && served <= |signals|
    && if end == Listening then served == |signals| && Calm(signals, served)
       else served > 0 && Calm(signals, served - 1) && SignalEnds(env, from, to, signals[served - 1].signal, end)
  }

  lemma CalmNext(env: Env, began: nat, from: nat, to: nat, signals: seq<Arrival>, k: nat, stop: Option<End>)
    requires k < |signals| && Calm(signals, k) && began <= from
    requires if stop.Some? then stop.value != Listening && SignalEnds(env, from, to, signals[k].signal, stop.value)
             else Harmless(signals, k)
    ensures if stop.Some? then LoopTold(env, began, to, signals, k + 1, stop.value) else Calm(signals, k + 1)
  {
    if stop.Some? {
      SignalEndsWider(env, began, from, to, to, signals[k].signal, stop.value);
    }
  }

  /** Why a connection past its handoff ended: in the scan it owed, or in the live loop. */
  ghost predicate LiveTold(env: Env, from: nat, to: nat, pending: bool, signals: seq<Arrival>, served: nat, end: End) {
    LoopTold(env, from, to, signals, served, end) || (pending && served == 0 && ScanBlamed(env, from, to, end))
  }

  /** Why the replay or the handoff ended a connection. */
  ghost predicate ReplayTold(env: Env, from: nat, to: nat, end: End) {
    || (end == ServerShutdown && Blamed(env, from, to, Shutdown))
    || ((end == ReplayFailed || end == SendFailed) && Blamed(env, from, to, Failed))
  }

  /** A failed replay sent no more than the replay, and a failed handoff all of it. */
  predicate BrokenOff(end: End, frames: seq<Frame>, sent: seq<Frame>) {
    (end == ReplayFailed ==> sent <= frames) && (end == SendFailed ==> frames <= sent)
  }

  lemma LiveBreaksOff(env: Env, from: nat, to: nat, pending: bool, signals: seq<Arrival>, served: nat, end: End)
    requires LiveTold(env, from, to, pending, signals, served, end)
    ensures end != ReplayFailed && end != SendFailed
  {
  }

  /** Why a connection ended, or that it listens because nothing ended it. */
  ghost predicate EndTold(env: Env, from: nat, to: nat, stopped: bool, admitted: bool, pending: bool, signals: seq<Arrival>,
                          served: nat, end: End)
  {
    if stopped then served == 0 && end == ServerShutdown
    else
      || (served == 0 && ReplayTold(env, from, to, end))
      || (if admitted then LiveTold(env, from, to, pending, signals, served, end) else served == 0 && end == ServerShutdown)
  }

  lemma LoopToldWider(env: Env, a: nat, b: nat, c: nat, signals: seq<Arrival>, served: nat, end: End)
    requires a <= b && LoopTold(env, b, c, signals, served, end)
    ensures LoopTold(env, a, c, signals, served, end)
  {
    if end != Listening {
      SignalEndsWider(env, a, b, c, c, signals[served - 1].signal, end);
    }
  }

  lemma LiveToldWider(env: Env, a: nat, b: nat, c: nat, pending: bool, signals: seq<Arrival>, served: nat, end: End)
    requires a <= b && LiveTold(env, b, c, pending, signals, served, end)
    ensures LiveTold(env, a, c, pending, signals, served, end)
  {
    if LoopTold(env, b, c, signals, served, end) {
      LoopToldWider(env, a, b, c, signals, served, end);
    } else {
      ScanBlamedWider(env, a, b, c, c, end);
    }
  }

  /** Nothing fails or is interrupted, and everything can be published and encoded. */
  ghost predicate Smooth(env: Env) {
    !Defective(env) && forall t: nat :: !Halts(env, t) && !Troubles(env, t)
  }

  /**
   * Where nothing fails, an admitted connection goes on through every signal that does not end it by
   * itself, and ends with the first that does, as that signal says.
   */
  lemma SmoothEnd(env: Env, from: nat, to: nat, pending: bool, signals: seq<Arrival>, served: nat, end: End)
    requires Smooth(env) && EndTold(env, from, to, false, true, pending, signals, served, end)
    ensures served <= |signals|
    ensures Calm(signals, |signals|) <==> end == Listening
    ensures end == Listening ==> served == |signals|
    ensures end != Listening ==>
              served > 0 && Calm(signals, served - 1) && Verdict(signals[served - 1].signal) == Some(end)
  {
    forall e: FlowError ensures !Blamed(env, from, to, e) {
      assert e == Shutdown || e == Failed;
    }
    assert LoopTold(env, from, to, signals, served, end);
    assert end != Listening ==> !Harmless(signals, served - 1);
  }

  // ----- the connection -----

  /**
   * `fed` is history: every durable event the connection was about to send, its handoff, and every
   * draft it received, in the order its filter saw them.
   */
  class Connection {
    const env: Env
    ghost const world: DraftEvents.World
    const drafts: ConnectionDraftState
    var clock: nat
    var sent: seq<Frame>
    var finalized: seq<Work>
    var faults: set<Fault>
    ghost var fed: seq<Frame>

    /** A connection that has done nothing yet. */
    ghost predicate Fresh()
      reads this, drafts
    {
      sent == fed == [] && finalized == [] && drafts.active == map[]
    }

    constructor (env: Env, ghost world: DraftEvents.World)
      ensures this.env == env && this.world == world && clock == 0 && faults == {}
      ensures fresh(drafts) && Fresh()
    {
      this.env, this.world := env, world;
      drafts := new ConnectionDraftState();
      clock, sent, finalized, faults, fed := 0, [], [], {}, [];
    }

    /** Every draft was sent as far as the filter forwarded it, and every last word passed on. */
    ghost predicate InStep()
      reads this, drafts
    {
      Filtered(fed, drafts.active, sent) && Paired(fed, finalized)
    }

    /** The same, but the last draft forwarded may not have been sent. */
    ghost predicate Behind()
      reads this
    {
      CutShort(fed, sent) && Paired(fed, finalized)
    }

    /** What was sent since is some of `frames`, in order. */
    twostate predicate SentSome(frames: seq<Frame>)
      reads this
    {
      old(sent) <= sent && sent <= old(sent) + frames
    }

    method SendFrame(frame: Frame) returns (r: Result<(), FlowError>)
      modifies this`clock, this`sent
      ensures clock == old(clock) + 1
      ensures r.Ok? ==> sent == old(sent) + [frame]
      ensures SentSome([frame]) && (sent == old(sent) || sent == old(sent) + [frame])
      ensures !frame.Live? && old(InStep()) ==> InStep()
      ensures r.Err? ==> Blamed(env, old(clock), clock, r.error)
    {
      assert env.send(clock).Fails? ==> Troubles(env, clock);
      assert env.send(clock).Interrupts? ==> Halts(env, clock);
      if !frame.Live? && InStep() {
        FilteredPlain(fed, drafts.active, sent, [frame]);
      }
      var fate := env.send(clock);
      clock := clock + 1;
      match fate
      case Arrives =>
        sent := sent + [frame];
        return Ok(());
      case Fails(reached) =>
        if reached {
          sent := sent + [frame];
        }
        return Err(Failed);
      case Interrupts(reached) =>
        if reached {
          sent := sent + [frame];
        }
        return Err(Shutdown);
    }

    /** Sends the buffered frames in order, stopping at the first that fails. */
    method FlushOutbound(outbound: seq<Frame>) returns (r: Result<(), FlowError>)
      modifies this`clock, this`sent
      ensures clock >= old(clock)
      ensures r.Ok? ==> sent == old(sent) + outbound
      ensures SentSome(outbound) && (AllDurable(outbound) && old(InStep()) ==> InStep())
      ensures r.Err? ==> Blamed(env, old(clock), clock, r.error)
    {
      var left := outbound;
      while left != []
        invariant left <= outbound[|outbound| - |left|..] && |left| <= |outbound|
        invariant left == outbound[|outbound| - |left|..]
        invariant clock >= old(clock) && (AllDurable(outbound) && old(InStep()) ==> InStep())
        invariant sent == old(sent) + outbound[..|outbound| - |left|]
        decreases |left|
      {
        var frame := left[0];
        left := left[1..];
        var k := |outbound| - |left|;
        assert outbound[..k] == outbound[..k - 1] + [frame];
        ghost var mid := clock;
        var sending := SendFrame(frame);
        if sending.Err? {
          BlamedWider(env, old(clock), mid, clock, clock, sending.error);
          return sending;
        }
      }
      return Ok(());
    }

    ghost function History(): Trail
      reads this
    {
      Trail(sent, fed, finalized)
    }

    /** Encodes an event into the buffer, after closing the drafts it is the last word on. */
    method BufferEvent(event: DurableEvent, outbound: seq<Frame>) returns (buffered: Result<seq<Frame>, FlowError>)
      requires Agrees(world, drafts.active, sent + outbound) && InStep()
      modifies this`finalized, this`faults, this`fed, drafts
      ensures finalized == old(finalized) + FinalOf(Durable(event))
      ensures fed == old(fed) + [Durable(event)] && Grown(old(fed), fed) && InStep()
      ensures buffered.Ok? ==> buffered.value == outbound + [Durable(event)] && Agrees(world, drafts.active, sent + buffered.value)
      ensures buffered.Ok? <==> env.encodes(event)
      ensures buffered.Err? ==> Blamed(env, clock, clock, buffered.error)
      ensures faults == old(faults) + if env.encodes(event) then {} else {EncodingFailure}
    {
      ReconcileAgrees(world, drafts.active, sent + outbound, event);
      FilteredNext(fed, drafts.active, sent, Durable(event), sent);
      PairedNext(fed, finalized, Durable(event));
      GrownNext(fed, fed, Durable(event));
      fed := fed + [Durable(event)];
      drafts.ReconcileDurable(event);
      var final := event.Finalizes();
      if final.Some? {
        finalized := finalized + [final.value];
      }
      if !env.encodes(event) {
        faults := faults + {EncodingFailure};
        return Err(Failed);
      }
      assert sent + (outbound + [Durable(event)]) == (sent + outbound) + [Durable(event)];
      return Ok(outbound + [Durable(event)]);
    }

    /** Buffers an event, and flushes the buffer when it is full. */
    method BufferAndFlush(event: DurableEvent, outbound: seq<Frame>) returns (r: Result<seq<Frame>, FlowError>)
      requires Agrees(world, drafts.active, sent + outbound) && InStep()
      requires AllDurable(outbound) && |outbound| < DraftEvents.OUTBOUND_FRAMES
      modifies this, drafts
      ensures clock >= old(clock) && Grown(old(fed), fed) && InStep()
      ensures finalized == old(finalized) + FinalOf(Durable(event)) && fed == old(fed) + [Durable(event)]
      ensures old(sent) <= sent <= old(sent) + outbound + [Durable(event)]
      ensures r.Ok? ==> AllDurable(r.value) && |r.value| < DraftEvents.OUTBOUND_FRAMES
      ensures r.Ok? ==> sent + r.value == old(sent) + outbound + [Durable(event)] && Agrees(world, drafts.active, sent + r.value)
      ensures r.Err? ==> Blamed(env, old(clock), clock, r.error)
    {
      assert sent + (outbound + [Durable(event)]) == sent + outbound + [Durable(event)];
      r := BufferEvent(event, outbound);
      if r.Ok? && |r.value| == DraftEvents.OUTBOUND_FRAMES {
        var flushed := FlushOutbound(r.value);
        r := if flushed.Ok? then Ok([]) else Err(flushed.error);
        assert sent + [] == sent;
      }
    }

    /**
     * Sends events in order through a buffer of 16 frames. A last word on a work closes its drafts
     * here and in the broker before its frame can be sent.
     */
    method SendEvents(events: seq<DurableEvent>) returns (r: Result<nat, FlowError>)
      requires Agrees(world, drafts.active, sent) && InStep()
      modifies this, drafts
      ensures clock >= old(clock) && Grown(old(fed), fed) && InStep()
      ensures r.Ok? ==> r.value == |events| && Sent(old(History()), events, History()) && Agrees(world, drafts.active, sent)
      ensures SentSome(Frames(events))
      ensures r.Err? ==> Blamed(env, old(clock), clock, r.error)
    {
      var outbound, k := [], 0;
      assert sent + outbound == sent && events[..0] == [];
      while k < |events|
        invariant k <= |events| && clock >= old(clock) && Grown(old(fed), fed) && InStep()
        invariant old(sent) <= sent && |outbound| < DraftEvents.OUTBOUND_FRAMES && AllDurable(outbound)
        invariant Sent(old(History()), events[..k], Trail(sent + outbound, fed, finalized))
        invariant Agrees(world, drafts.active, sent + outbound)
      {
        SentNext(old(History()), events, k, Trail(sent + outbound, fed, finalized));
        ghost var mid, began := fed, clock;
        var buffered := BufferAndFlush(events[k], outbound);
        GrownTwice(old(fed), mid, fed);
        if buffered.Err? {
          BlamedWider(env, old(clock), began, clock, clock, buffered.error);
          return Err(buffered.error);
        }
        outbound := buffered.value;
        k := k + 1;
      }
      assert events[..k] == events;
      ghost var began := clock;
      var flushed := FlushOutbound(outbound);
      if flushed.Err? {
        BlamedWider(env, old(clock), began, clock, clock, flushed.error);
        return Err(flushed.error);
      }
      return Ok(|events|);
    }

    /** Reads one page of the journal as it is now. */
    method ReadPage(scanned: nat, through: nat) returns (r: Result<ReplayPage, FlowError>)
      requires Lawful(env) && scanned < through <= HighWater(env.journal(clock))
      modifies this`clock, this`faults
      ensures clock == old(clock) + 1
      ensures r.Ok? ==>
                && scanned < r.value.scannedThrough <= through && (!r.value.hasMore ==> r.value.scannedThrough == through)
                && r.value.events == Public(env.journal(old(clock)), env.project, scanned, r.value.scannedThrough)
      ensures r.Err? ==> Blamed(env, old(clock), clock, r.error)
      ensures var fate := env.store(old(clock));
              faults == old(faults) + if fate == Errs || (fate == Answers && r.Err?) then {StorageFailure} else {}
    {
      assert env.store(clock) == Interrupted ==> Halts(env, clock);
      assert env.store(clock) != Answers && env.store(clock) != Interrupted ==> Troubles(env, clock);
      var fate, now := env.store(clock), clock;
      clock := clock + 1;
      if fate != Answers {
        if fate == Errs {
          faults := faults + {StorageFailure};
        }
        return Err(if fate == Interrupted then Shutdown else Failed);
      }
      var read := ReadReplayPage(env.journal(now), env.project, scanned, through);
      if read.Err? {
        faults := faults + {StorageFailure};
        return Err(Failed);
      }
      return Ok(read.value);
    }

    /** Reads and sends one page. `start` is when the journal was known to reach `through`. */
    method ScanPage(scanned: nat, through: nat, ghost start: nat)
      returns (r: Result<nat, FlowError>, next: nat, hasMore: bool)
      requires Lawful(env) && start <= clock && scanned < through <= HighWater(env.journal(start))
      requires Agrees(world, drafts.active, sent) && InStep()
      modifies this, drafts
      ensures clock >= old(clock) && Grown(old(fed), fed) && InStep()
      ensures SentSome(Frames(Public(env.journal(start), env.project, scanned, through)))
      ensures r.Err? ==> Blamed(env, old(clock), clock, r.error)
      ensures r.Ok? ==>
                var done := Public(env.journal(start), env.project, scanned, next);
                && scanned < next <= through && (!hasMore ==> next == through)
                && r.value == |done| && Sent(old(History()), done, History()) && Agrees(world, drafts.active, sent)
    {
      HighWaterGrows(env, start, clock);
      ghost var now := clock;
      next, hasMore := scanned, false;
      var read := ReadPage(scanned, through);
      if read.Err? {
        r := Err(read.error);
        return;
      }
      PagePart(env, start, now, scanned, read.value.scannedThrough, through);
      ghost var began := clock;
      r := SendEvents(read.value.events);
      if r.Err? {
        BlamedWider(env, now, began, clock, clock, r.error);
      }
      next, hasMore := read.value.scannedThrough, read.value.hasMore;
    }

    /** One page of a scan from `from`, when everything up to `reached` was sent since `was`. */
    method ScanOn(ghost from: nat, reached: nat, through: nat, ghost start: nat, ghost was: Trail)
      returns (r: Result<nat, FlowError>, next: nat, hasMore: bool)
      requires Lawful(env) && start <= clock && from <= reached < through <= HighWater(env.journal(start))
      requires Sent(was, Public(env.journal(start), env.project, from, reached), History())
      requires Agrees(world, drafts.active, sent) && InStep()
      modifies this, drafts
      ensures clock >= old(clock) && Grown(old(fed), fed) && InStep()
      ensures r.Err? ==> Blamed(env, old(clock), clock, r.error)
      ensures var j := env.journal(start);
              && was.sent <= sent <= was.sent + Frames(Public(j, env.project, from, through))
              && (r.Ok? ==>
                    && reached < next <= through && (!hasMore ==> next == through)
                    && |Public(j, env.project, from, reached)| + r.value == |Public(j, env.project, from, next)|
                    && Sent(was, Public(j, env.project, from, next), History()) && Agrees(world, drafts.active, sent))
    {
      ghost var j, mid := env.journal(start), History();
      ghost var done := Public(j, env.project, from, reached);
      PublicSplit(j, env.project, from, reached, through);
      r, next, hasMore := ScanPage(reached, through, start);
      SentPart(was.sent, done, mid.sent, Public(j, env.project, reached, through), sent);
      if r.Ok? {
        PublicSplit(j, env.project, from, reached, next);
        SentMore(was, done, mid, Public(j, env.project, reached, next), History());
      }
    }

    /**
     * Sends the public events of (scanned, through] page by page. Every page moves forward and
     * never past `through`, so the protocol-invariant exits are never taken.
     */
    method ScanAndSend(scanned: nat, through: nat, ghost start: nat) returns (r: Result<nat, FlowError>, reached: nat)
      requires Lawful(env) && start <= clock && through <= HighWater(env.journal(start))
      requires Agrees(world, drafts.active, sent) && InStep()
      modifies this, drafts
      ensures clock >= old(clock) && Grown(old(fed), fed) && InStep()
      ensures var due := Public(env.journal(start), env.project, scanned, through);
              && SentSome(Frames(due))
              && (r.Ok? ==> r.value == |due| && Sent(old(History()), due, History()) && Agrees(world, drafts.active, sent))
      ensures r.Ok? ==> reached == if scanned < through then through else scanned
      ensures r.Err? ==> Blamed(env, old(clock), clock, r.error)
    {
      var count := 0;
      reached := scanned;
      ghost var j := env.journal(start);
      SelectPast(j, scanned, scanned);
      while reached < through
        invariant scanned <= reached && (reached <= through || reached == scanned)
        invariant clock >= old(clock) && Grown(old(fed), fed) && InStep()
        invariant count == |Public(j, env.project, scanned, reached)|
        invariant Sent(old(History()), Public(j, env.project, scanned, reached), History())
        invariant Agrees(world, drafts.active, sent)
        decreases through - reached
      {
        ghost var mid, began := fed, clock;
        var sending, next, hasMore := ScanOn(scanned, reached, through, start, old(History()));
        GrownTwice(old(fed), mid, fed);
        if sending.Err? {
          BlamedWider(env, old(clock), began, clock, clock, sending.error);
          r := Err(sending.error);
          return;
        }
        if next <= reached || next > through {
          assert false;
        }
        count := count + sending.value;
        reached := next;
        if !hasMore && reached != through {
          assert false;
        }
      }
      if scanned >= through {
        SelectPast(j, scanned, through);
      }
      r := Ok(count);
    }

    /** One live scan: everything public up to the current end of the journal. */
    method LiveScan(scanned: nat) returns (r: Result<nat, FlowError>, reached: nat)
      requires Lawful(env) && Agrees(world, drafts.active, sent) && InStep()
      modifies this, drafts
      ensures Grown(old(fed), fed) && InStep()
      ensures clock >= old(clock) && scanned <= reached
              && (reached == scanned || reached <= HighWater(env.journal(old(clock))))
      ensures r.Ok? ==> HighWater(env.journal(old(clock))) <= reached
      ensures r.Err? ==> Blamed(env, old(clock), clock, r.error)
      ensures var due := Public(env.journal(old(clock)), env.project, scanned, reached);
              && SentSome(Frames(due))
              && (r.Ok? ==> r.value == |due| && Sent(old(History()), due, History()) && Agrees(world, drafts.active, sent))
    {
      assert env.store(clock) == Interrupted ==> Halts(env, clock);
      assert env.store(clock) != Answers && env.store(clock) != Interrupted ==> Troubles(env, clock);
      var fate, now := env.store(clock), clock;
      clock := clock + 1;
      if fate != Answers {
        if fate == Errs {
          faults := faults + {StorageFailure};
        }
        return Err(if fate == Interrupted then Shutdown else Failed), scanned;
      }
      var highWater := HighWater(env.journal(now));
      r, reached := ScanAndSend(scanned, highWater, now);
      if r.Err? {
        BlamedWider(env, now, now + 1, clock, clock, r.error);
      }
      reached := if scanned < highWater then highWater else scanned;
      if highWater <= scanned {
        SelectPast(env.journal(now), scanned, scanned);
        SelectPast(env.journal(now), scanned, highWater);
      }
    }

    /** Whether some hint, not consumed by the replay, calls for a live scan. */
    method DrainHints(hints: seq<Hint>, highWater: nat) returns (pending: bool)
      ensures pending <==> Called(hints, highWater)
    {
      for k := 0 to |hints|
        invariant forall j :: 0 <= j < k ==> hints[j] != NoHint && !Calls(hints[j], highWater)
      {
        match hints[k]
        case Cursor(value) =>
          if value > highWater {
            return true;
          }
        case Lagged => return true;
        case NoHint => return false;
      }
      return false;
    }

    /** The connection is live: `tail` is everything after the handoff, and the scan has reached `scanned`. */
    ghost predicate LiveAt(opening: seq<Frame>, highWater: nat, scanned: nat, tail: seq<Frame>)
      reads this, drafts
    {
      && Lawful(env) && sent == opening + tail && Tail(env, clock, highWater, scanned, tail)
      && Agrees(world, drafts.active, sent) && InStep() && opening <= fed
    }

    /** The connection has ended after its handoff: nothing out of order was sent. */
    ghost predicate EndedAt(opening: seq<Frame>, highWater: nat, tail: seq<Frame>)
      reads this
    {
      && sent == opening + tail && NoSync(tail)
      && Durables(tail) <= Public(env.journal(clock), env.project, highWater, HighWater(env.journal(clock)))
      && Legible(sent) && Behind() && opening <= fed
    }

    lemma LiveEnds(opening: seq<Frame>, highWater: nat, scanned: nat, tail: seq<Frame>)
      requires LiveAt(opening, highWater, scanned, tail)
      ensures EndedAt(opening, highWater, tail)
    {
      TailPart(env, clock, highWater, scanned, tail, tail);
      AgreesLegible(world, drafts.active, sent);
      FilteredShort(fed, drafts.active, sent);
    }

    method LiveScanStep(ghost opening: seq<Frame>, highWater: nat, scanned: nat, ghost tail: seq<Frame>)
      returns (r: Result<nat, FlowError>, reached: nat, ghost now: seq<Frame>)
      requires LiveAt(opening, highWater, scanned, tail)
      modifies this, drafts
      ensures clock >= old(clock) && Grown(old(fed), fed)
      ensures r.Ok? ==> LiveAt(opening, highWater, reached, now)
      ensures r.Ok? ==> scanned <= reached && HighWater(env.journal(old(clock))) <= reached
      ensures r.Err? ==> EndedAt(opening, highWater, now) && Blamed(env, old(clock), clock, r.error)
    {
      ghost var t := clock;
      AgreesLegible(world, drafts.active, sent);
      r, reached := LiveScan(scanned);
      ghost var part := Beyond(opening, tail, Frames(Public(env.journal(t), env.project, scanned, reached)), sent);
      now := tail + part;
      if r.Ok? {
        TailScanned(env, t, highWater, scanned, reached, tail);
        TailLater(env, t, clock, highWater, reached, now);
      } else {
        ScanCut(env, t, clock, highWater, scanned, reached, tail, part);
        FilteredShort(fed, drafts.active, sent);
        CutLegible(opening, tail, Public(env.journal(t), env.project, scanned, reached), part);
      }
    }

    /** Feeds a draft to the filter. */
    method TakeDraft(event: DraftEvents.Event) returns (forward: bool)
      requires Agrees(world, drafts.active, sent) && InStep() && Owned(world, event)
      modifies this`fed, drafts
      ensures fed == old(fed) + [Live(event)] && Behind()
      ensures var now := if forward then sent + [Live(event)] else sent;
              Agrees(world, drafts.active, now) && Filtered(fed, drafts.active, now)
    {
      ghost var now := if Accepts(drafts.active, event) then sent + [Live(event)] else sent;
      AcceptAgrees(world, drafts.active, sent, event);
      FilteredNext(fed, drafts.active, sent, Live(event), now);
      FilteredLost(fed, drafts.active, sent, event);
      PairedNext(fed, finalized, Live(event));
      assert finalized + [] == finalized;
      fed := fed + [Live(event)];
      forward := drafts.Accept(event);
    }

    method LiveDraft(ghost opening: seq<Frame>, ghost highWater: nat, ghost scanned: nat, ghost tail: seq<Frame>,
                     event: DraftEvents.Event)
      returns (ok: bool, ghost now: seq<Frame>)
      requires LiveAt(opening, highWater, scanned, tail) && Owned(world, event)
      modifies this, drafts
      ensures clock >= old(clock) && fed == old(fed) + [Live(event)]
      ensures ok ==> LiveAt(opening, highWater, scanned, now)
      ensures !ok ==> EndedAt(opening, highWater, now) && DraftBlamed(env, old(clock), clock, SlowConsumer)
    {
      ghost var t := clock;
      now := tail;
      LiveEnds(opening, highWater, scanned, tail);
      var forward := TakeDraft(event);
      if !forward {
        return true, tail;
      }
      if !env.fits(event) {
        return false, tail;
      }
      AgreesLegible(world, drafts.active, sent + [Live(event)]);
      FilteredShort(fed, drafts.active, sent + [Live(event)]);
      var sending := SendFrame(Live(event));
      now := DraftSent(env, t, clock, opening, highWater, scanned, tail, event, sent);
      return sending.Ok?, now;
    }

    /** What one signal does: it ends the connection, or leaves it live and, if it makes it scan, caught up. */
    method ServeSignal(ghost opening: seq<Frame>, highWater: nat, scanned: nat, ghost tail: seq<Frame>, signal: Signal)
      returns (stop: Option<End>, reached: nat, ghost now: seq<Frame>)
      requires LiveAt(opening, highWater, scanned, tail) && (signal.DraftReceived? ==> Owned(world, signal.event))
      modifies this, drafts
      ensures clock >= old(clock) && Brings(old(fed), signal, fed)
      ensures stop.Some? ==> stop.value != Listening && EndedAt(opening, highWater, now)
      ensures stop.Some? ==> SignalEnds(env, old(clock), clock, signal, stop.value)
      ensures stop.None? ==> Verdict(signal) == None && LiveAt(opening, highWater, reached, now) && scanned <= reached
      ensures stop.None? && Scans(signal) ==> HighWater(env.journal(old(clock))) <= reached
    {
      reached, now := scanned, tail;
      match signal {
        case DraftReceived(event) =>
          var ok;
          ok, now := LiveDraft(opening, highWater, scanned, tail, event);
          stop := if ok then None else Some(SlowConsumer);
        case HintReceived =>
          stop, reached, now := ServeScan(opening, highWater, scanned, tail);
        case Tick =>
          stop, reached, now := ServeScan(opening, highWater, scanned, tail);
        case _ =>
          LiveEnds(opening, highWater, scanned, tail);
          stop := Judge(signal);
      }
      BringsOne(old(fed), signal, fed);
    }

    /** The signals that neither scan nor bring a draft. */
    method Judge(signal: Signal) returns (stop: Option<End>)
      requires !Scans(signal) && !signal.DraftReceived?
      ensures stop == Verdict(signal) && stop != Some(Listening)
    {
      match signal {
        case ShutdownChanged(latched) =>
          if latched {
            return Some(ServerShutdown);
          }
        case Incoming(message) =>
          match message {
            case TextOrBinary => return Some(PolicyViolation);
            case CloseOrEnd => return Some(PeerClosed);
            case TransportError => return Some(TransportFailed);
            case PingOrPong =>
          }
        case HintsClosed =>
        case DraftOverloaded => return Some(DeliveryOverloaded);
        case DraftClosed => return Some(ServerShutdown);
      }
      return None;
    }

    /** A hint or a tick: a live scan. */
    method ServeScan(ghost opening: seq<Frame>, highWater: nat, scanned: nat, ghost tail: seq<Frame>)
      returns (stop: Option<End>, reached: nat, ghost now: seq<Frame>)
      requires LiveAt(opening, highWater, scanned, tail)
      modifies this, drafts
      ensures clock >= old(clock) && Grown(old(fed), fed)
      ensures stop.Some? ==> EndedAt(opening, highWater, now) && ScanBlamed(env, old(clock), clock, stop.value)
      ensures stop.None? ==> LiveAt(opening, highWater, reached, now) && scanned <= reached
      ensures stop.None? ==> HighWater(env.journal(old(clock))) <= reached
    {
      var r;
      r, reached, now := LiveScanStep(opening, highWater, scanned, tail);
      stop := if r.Ok? then None else Some(if r.error == Shutdown then ServerShutdown else LiveScanFailed);
    }

    /** Waits for a signal: time passes, and the journal may grow. */
    method Await(ghost opening: seq<Frame>, ghost highWater: nat, ghost scanned: nat, ghost tail: seq<Frame>, at: nat)
      requires LiveAt(opening, highWater, scanned, tail)
      modifies this`clock
      ensures LiveAt(opening, highWater, scanned, tail) && clock >= old(clock) && clock >= at
    {
      if clock < at {
        TailLater(env, clock, at, highWater, scanned, tail);
        clock := at;
      }
    }

    /** The scan begun at `last`, if any, has sent all there was. */
    ghost predicate CaughtUp(scanned: nat, last: nat, scans: bool)
      reads this`clock
    {
      last <= clock && (scans ==> HighWater(env.journal(last)) <= scanned)
    }

    /** The live loop after the first `k` signals: it is live, and caught up with the last scan they made it begin. */
    ghost predicate Serving(opening: seq<Frame>, highWater: nat, reached: nat, now: seq<Frame>, signals: seq<Arrival>, k: nat,
                            caught: bool, last: nat, was: seq<Frame>)
      requires k <= |signals|
      reads this, drafts
    {
      && LiveAt(opening, highWater, reached, now) && CaughtUp(reached, last, caught || Stirs(signals, k))
      && StirredBy(signals, k, last) && BringsAll(was, signals, k, fed) && Calm(signals, k)
    }

    /** Waits for the next signal and serves it; the loop began at `began`. */
    method ServeNext(ghost opening: seq<Frame>, highWater: nat, scanned: nat, ghost tail: seq<Frame>, signals: seq<Arrival>,
                     k: nat, ghost caught: bool, ghost from: nat, ghost was: seq<Frame>, ghost began: nat)
      returns (stop: Option<End>, reached: nat, ghost now: seq<Frame>, ghost last: nat)
      requires k < |signals| && Serving(opening, highWater, scanned, tail, signals, k, caught, from, was)
      requires AllDraftsOwned(world, signals) && began <= clock
      modifies this, drafts
      ensures clock >= old(clock) && from <= last <= clock
      ensures stop.Some? ==> stop.value != Listening && EndedAt(opening, highWater, now) && BringsAll(was, signals, k + 1, fed)
      ensures stop.Some? ==> LoopTold(env, began, clock, signals, k + 1, stop.value)
      ensures stop.None? ==> Serving(opening, highWater, reached, now, signals, k + 1, caught, last, was)
    {
      var signal := signals[k].signal;
      ghost var mid := fed;
      assert OwnedAt(world, signals, k);
      Await(opening, highWater, scanned, tail, signals[k].at);
      last := if Scans(signal) then clock else from;
      StirsNext(signals, k, from, last);
      ghost var at := clock;
      stop, reached, now := ServeSignal(opening, highWater, scanned, tail, signal);
      BringsNext(was, signals, k, mid, fed);
      CalmNext(env, began, at, clock, signals, k, stop);
    }

    lemma ServesFirst(opening: seq<Frame>, highWater: nat, scanned: nat, tail: seq<Frame>, signals: seq<Arrival>, caught: bool,
                      from: nat)
      requires LiveAt(opening, highWater, scanned, tail) && CaughtUp(scanned, from, caught)
      ensures Serving(opening, highWater, scanned, tail, signals, 0, caught, from, fed)
    {
      BringsNone(signals, fed);
      assert !Stirs(signals, 0);
    }

    /** What a live loop that goes on listening has sent. */
    lemma StillListening(opening: seq<Frame>, highWater: nat, reached: nat, now: seq<Frame>, signals: seq<Arrival>, caught: bool,
                         last: nat, was: seq<Frame>, began: nat)
      requires Serving(opening, highWater, reached, now, signals, |signals|, caught, last, was)
      ensures EndedAt(opening, highWater, now) && InStep() && BringsAll(was, signals, |signals|, fed)
      ensures LoopTold(env, began, clock, signals, |signals|, Listening) && StirredBy(signals, |signals|, last)
      ensures caught || Stirs(signals, |signals|) ==> Sends(env, last, highWater, now)
    {
      LiveEnds(opening, highWater, reached, now);
      if caught || Stirs(signals, |signals|) {
        TailSends(env, last, clock, highWater, reached, now);
      }
    }

    /**
     * The live loop, for as many signals as arrive before it ends; it serves `served` of them. `last`
     * is when it last began a scan, `from` at first if it had scanned before.
     */
    method ServeLive(ghost opening: seq<Frame>, highWater: nat, scanned: nat, ghost tail: seq<Frame>,
                     signals: seq<Arrival>, ghost from: nat, ghost caught: bool)
      returns (end: End, ghost now: seq<Frame>, ghost last: nat, ghost served: nat)
      requires LiveAt(opening, highWater, scanned, tail) && AllDraftsOwned(world, signals) && CaughtUp(scanned, from, caught)
      modifies this, drafts
      ensures clock >= old(clock) && from <= last <= clock
      ensures EndedAt(opening, highWater, now) && (end == Listening ==> InStep())
      ensures served <= |signals| && BringsAll(old(fed), signals, served, fed) && (end == Listening ==> served == |signals|)
      ensures LoopTold(env, old(clock), clock, signals, served, end)
      ensures end == Listening ==> StirredBy(signals, |signals|, last)
      ensures end == Listening && (caught || Stirs(signals, |signals|)) ==> Sends(env, last, highWater, now)
    {
      var reached, k := scanned, 0;
      now, last := tail, from;
      ServesFirst(opening, highWater, scanned, tail, signals, caught, from);
      while k < |signals|
        invariant k <= |signals| && old(clock) <= clock && from <= last <= clock
        invariant Serving(opening, highWater, reached, now, signals, k, caught, last, old(fed))
      {
        var stop;
        stop, reached, now, last := ServeNext(opening, highWater, reached, now, signals, k, caught, last, old(fed), old(clock));
        k := k + 1;
        if stop.Some? {
          return stop.value, now, last, k;
        }
      }
      end, served := Listening, k;
      StillListening(opening, highWater, reached, now, signals, caught, last, old(fed), old(clock));
    }

    lemma Ends(opening: seq<Frame>, after: nat, highWater: nat, tail: seq<Frame>, start: nat)
      requires Lawful(env) && start <= clock && highWater <= HighWater(env.journal(start))
      requires opening == Opening(env.journal(start), env.project, after, highWater)
               && EndedAt(opening, highWater, tail)
      ensures Delivered(env, clock, after, highWater, sent)
    {
      DeliveredTail(env, start, clock, after, highWater, sent, tail);
    }

    /** The replay and the handoff. */
    method Replay(after: nat, highWater: nat, hints: seq<Hint>) returns (r: Result<bool, End>, scanned: nat)
      requires Lawful(env) && after <= highWater <= HighWater(env.journal(clock)) && Fresh()
      modifies this, drafts
      ensures clock >= old(clock) && Grown([], fed) && Behind()
      ensures var opening := Opening(env.journal(old(clock)), env.project, after, highWater);
              r.Ok? ==> LiveAt(opening, highWater, highWater, [])
      ensures r.Ok? ==> scanned == highWater && r.value == Called(hints, highWater)
      ensures r.Err? ==> r.error != Listening && Delivered(env, clock, after, highWater, sent) && Legible(sent)
      ensures r.Err? ==> ReplayTold(env, old(clock), clock, r.error)
      ensures r.Err? ==> BrokenOff(r.error, Frames(Public(env.journal(old(clock)), env.project, after, highWater)), sent)
    {
      ghost var start := clock;
      NothingAgrees(world);
      var replayed;
      replayed, scanned := ScanAndSend(after, highWater, start);
      FilteredShort(fed, drafts.active, sent);
      ghost var due := Public(env.journal(start), env.project, after, highWater);
      assert [] + Frames(due) == Frames(due);
      if replayed.Err? {
        DeliveredReplay(env, start, clock, after, highWater, sent);
        return Err(if replayed.error == Shutdown then ServerShutdown else ReplayFailed), scanned;
      }
      var pending := DrainHints(hints, highWater);
      ghost var mid, began := fed, clock;
      var synced := Handoff(after, highWater, start);
      GrownTwice([], mid, fed);
      if synced.Err? {
        BlamedWider(env, start, began, clock, clock, synced.error);
        return Err(if synced.error == Shutdown then ServerShutdown else SendFailed), scanned;
      }
      return Ok(pending), scanned;
    }

    method Handoff(ghost after: nat, highWater: nat, ghost start: nat) returns (r: Result<(), FlowError>)
      requires Lawful(env) && start <= clock && highWater <= HighWater(env.journal(start))
      requires Agrees(world, drafts.active, sent) && InStep()
      requires sent == fed == Frames(Public(env.journal(start), env.project, after, highWater))
      modifies this
      ensures clock >= old(clock) && Grown(old(fed), fed) && Behind()
      ensures r.Ok? ==> LiveAt(Opening(env.journal(start), env.project, after, highWater), highWater, highWater, [])
      ensures r.Err? ==> Delivered(env, clock, after, highWater, sent) && Legible(sent)
      ensures r.Err? ==> Blamed(env, old(clock), clock, r.error) && old(sent) <= sent
    {
      ghost var was, opening := sent, Opening(env.journal(start), env.project, after, highWater);
      SyncAgrees(world, drafts.active, sent, highWater);
      AgreesLegible(world, drafts.active, sent + [Sync(highWater)]);
      FilteredNext(fed, drafts.active, sent, Sync(highWater), sent);
      PairedNext(fed, finalized, Sync(highWater));
      assert finalized + [] == finalized;
      GrownNext(fed, fed, Sync(highWater));
      fed := fed + [Sync(highWater)];
      r := SendFrame(Sync(highWater));
      FilteredShort(fed, drafts.active, sent);
      TailStarts(env, start, clock, highWater);
      assert opening + [] == opening;
      if r.Err? {
        if sent == was {
          DeliveredReplay(env, start, clock, after, highWater, sent);
        } else {
          assert sent == opening;
          DeliveredTail(env, start, clock, after, highWater, sent, []);
        }
      }
    }

    /** Live delivery from the handoff on; `last` is when the last scan began. */
    method Deliver(after: nat, highWater: nat, pending: bool, signals: seq<Arrival>, ghost opening: seq<Frame>,
                   ghost start: nat)
      returns (end: End, ghost last: nat, ghost served: nat)
      requires start <= clock && after <= highWater <= HighWater(env.journal(start))
      requires opening == Opening(env.journal(start), env.project, after, highWater)
      requires LiveAt(opening, highWater, highWater, []) && AllDraftsOwned(world, signals)
      modifies this, drafts
      ensures Delivered(env, clock, after, highWater, sent) && Legible(sent) && opening <= sent
      ensures Behind() && opening <= fed && (end == Listening ==> InStep())
      ensures served <= |signals| && BringsAll(old(fed), signals, served, fed) && (end == Listening ==> served == |signals|)
      ensures LiveTold(env, old(clock), clock, pending, signals, served, end)
      ensures old(clock) <= last <= clock && (end == Listening ==> StirredBy(signals, |signals|, last))
      ensures end == Listening && (pending || Stirs(signals, |signals|)) ==> Sends(env, last, after, sent)
    {
      ghost var tail, from := [], clock;
      var scanned := highWater;
      if pending {
        var r;
        r, scanned, tail := LiveScanStep(opening, highWater, scanned, tail);
        if r.Err? {
          Ends(opening, after, highWater, tail, start);
          BringsNone(signals, fed);
          BringsFrom(old(fed), fed, signals, 0, fed);
          return if r.error == Shutdown then ServerShutdown else LiveScanFailed, from, 0;
        }
      }
      ghost var mid, began := fed, clock;
      end, tail, last, served := ServeLive(opening, highWater, scanned, tail, signals, from, pending);
      BringsFrom(old(fed), mid, signals, served, fed);
      LoopToldWider(env, from, began, clock, signals, served, end);
      Ends(opening, after, highWater, tail, start);
      if end == Listening && (pending || Stirs(signals, |signals|)) {
        OpeningSends(env, start, last, after, highWater, tail);
      }
    }

    /**
     * A whole connection. Whatever fails and whichever hints are lost, late or repeated, what was
     * sent is as `Delivered` says, its drafts are well formed, and of each draft it is the first of
     * what the filter forwards; the filter was fed the drafts that the `served` signals brought and
     * every last word fed was passed on. A connection that is still listening has handed off and
     * sent of each draft all that the filter forwards. If a hint or a tick made it scan, it has sent
     * everything that was public when it began its last scan, and no hint or tick has come since.
     */
    method Run(after: nat, highWater: nat, stopped: bool, hints: seq<Hint>, admitted: bool, signals: seq<Arrival>)
      returns (end: End, ghost last: nat, ghost served: nat)
      requires Lawful(env) && after <= highWater <= HighWater(env.journal(clock))
      requires Fresh() && AllDraftsOwned(world, signals)
      modifies this, drafts
      ensures Delivered(env, clock, after, highWater, sent) && Legible(sent)
      ensures Behind() && served <= |signals| && BringsAll([], signals, served, fed)
      ensures end == Listening ==> InStep() && served == |signals|
      ensures var opening := Opening(env.journal(old(clock)), env.project, after, highWater);
              end == Listening ==> opening <= sent && opening <= fed
      ensures EndTold(env, old(clock), clock, stopped, admitted, Called(hints, highWater), signals, served, end)
      ensures stopped ==> sent == []
      ensures BrokenOff(end, Frames(Public(env.journal(old(clock)), env.project, after, highWater)), sent)
      ensures old(clock) <= last <= clock && (end == Listening ==> StirredBy(signals, |signals|, last))
      ensures end == Listening && (Called(hints, highWater) || Stirs(signals, |signals|)) ==> Sends(env, last, after, sent)
    {
      last, served := clock, 0;
      NothingAgrees(world);
      if stopped {
        return ServerShutdown, last, 0;
      }
      ghost var start := clock;
      var replayed, scanned := Replay(after, highWater, hints);
      BringsNone(signals, fed);
      BringsFrom([], fed, signals, 0, fed);
      if replayed.Err? {
        return replayed.error, last, 0;
      }
      ghost var opening, was := Opening(env.journal(start), env.project, after, highWater), fed;
      if !admitted {
        LiveEnds(opening, highWater, highWater, []);
        Ends(opening, after, highWater, [], start);
        return ServerShutdown, last, 0;
      }
      ghost var began := clock;
      end, last, served := Deliver(after, highWater, replayed.value, signals, opening, start);
      BringsFrom([], was, signals, served, fed);
      LiveToldWider(env, start, began, clock, replayed.value, signals, served, end);
      LiveBreaksOff(env, start, clock, replayed.value, signals, served, end);
    }
  }
}
