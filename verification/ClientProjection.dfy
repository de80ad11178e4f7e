/**
 * A client that follows a conversation over any number of connections: it drops durable events it
 * has seen, keeps one active draft per work, and records the committed answers.
 */
module ClientProjection {
  import opened Prelude
  import opened PublicJournal
  import opened DraftFilter
  import opened ReplayConnection
  import DraftEvents

  /** Events without a work are filed under `None`. */
  type Key = Option<Work>

  datatype Client = Client(active: map<Key, DraftEvents.Draft>, finalized: set<Key>, durable: set<nat>, answers: map<Key, string>)

  const BLANK := Client(map[], {}, {}, map[])

  function Reconnected(c: Client): Client {
    c.(active := map[])
  }

  /** Records an event seen for the first time. */
  function Recorded(c: Client, e: DurableEvent): Client {
    var seen := c.(durable := c.durable + {e.id});
    if e.kind == MessageCommitted
    then seen.(finalized := c.finalized + {e.work}, active := c.active - {e.work}, answers := c.answers[e.work := e.answer])
    else seen
  }

  function Applied(c: Client, f: Frame): Client {
    match f
    case Durable(e) => if e.id in c.durable then c else Recorded(c, e)
    case Sync(_) => c
    case Live(e) =>
      var work := Some(e.identity.work);
      if work in c.finalized then c
      else if e.payload.Started? then c.(active := c.active[work := e.identity.draft])
      else if e.payload.Abandoned? then c.(active := c.active - {work})
      else c
  }

  class Projection {
    var activeDrafts: map<Key, DraftEvents.Draft>
    var finalizedWork: set<Key>
    var durableEvents: set<nat>
    var answers: map<Key, string>

    ghost function View(): Client
      reads this
    {
      Client(activeDrafts, finalizedWork, durableEvents, answers)
    }

    constructor ()
      ensures View() == BLANK
    {
      activeDrafts, finalizedWork, durableEvents, answers := map[], {}, {}, map[];
    }

    method Reconnect()
      modifies this
      ensures View() == Reconnected(old(View()))
    {
      activeDrafts := map[];
    }

    method Apply(frame: Frame)
      modifies this
      ensures View() == Applied(old(View()), frame)
    {
      match frame
      case Durable(event) =>
        if event.id in durableEvents {
          return;
        }
        durableEvents := durableEvents + {event.id};
        if event.kind == MessageCommitted {
          finalizedWork := finalizedWork + {event.work};
          activeDrafts := activeDrafts - {event.work};
          answers := answers[event.work := event.answer];
        }
      case Sync(_) =>
      case Live(event) =>
        var work := Some(event.identity.work);
        if work !in finalizedWork {
          if event.payload.Started? {
            activeDrafts := activeDrafts[work := event.identity.draft];
          } else if event.payload.Abandoned? {
            activeDrafts := activeDrafts - {work};
          }
        }
    }

    /** One connection's worth of frames. */
    method Receive(frames: seq<Frame>)
      modifies this
      ensures View() == AppliedAll(Reconnected(old(View())), frames)
    {
      Reconnect();
      for k := 0 to |frames|
        invariant View() == AppliedAll(Reconnected(old(View())), frames[..k])
      {
        Apply(frames[k]);
        assert frames[..k + 1][..k] == frames[..k];
      }
      assert frames[..|frames|] == frames;
    }
  }

  function AppliedAll(c: Client, frames: seq<Frame>): Client {
    if frames == [] then c else Applied(AppliedAll(c, frames[..|frames| - 1]), frames[|frames| - 1])
  }

  // ----- the draft shown -----

  /** The draft of a work that was started last among some frames and not abandoned since. */
  function LastStarted(frames: seq<Frame>, work: Work): Option<DraftEvents.Draft> {
    if frames == [] then None
    else
      var f := frames[|frames| - 1];
      if f.Live? && f.draft.identity.work == work && !f.draft.payload.Delta?
      then if f.draft.payload.Started? then Some(f.draft.identity.draft) else None
      else LastStarted(frames[..|frames| - 1], work)
  }

  /**
   * After a connection's frames a client shows of each work the draft started last and not abandoned
   * since, if the work is not finalized, and none if it is.
   */
  lemma {:induction false} DraftShown(c: Client, frames: seq<Frame>, work: Work)
    ensures var now, key := AppliedAll(Reconnected(c), frames), Some(work);
            && (key in now.active <==> key !in now.finalized && LastStarted(frames, work).Some?)
            && (key in now.active ==> LastStarted(frames, work) == Some(now.active[key]))
  {
    if frames != [] {
      DraftShown(c, frames[..|frames| - 1], work);
    }
  }

  // ----- one fold over the journal -----

  function Folded(events: seq<DurableEvent>): Client {
    if events == [] then BLANK else Recorded(Folded(events[..|events| - 1]), events[|events| - 1])
  }

  ghost predicate Distinct(events: seq<DurableEvent>) {
    forall i, k :: 0 <= i < |events| && 0 <= k < |events| && events[i].id == events[k].id ==> i == k
  }

  lemma FoldedNext(events: seq<DurableEvent>, n: nat)
    requires n < |events|
    ensures Folded(events[..n + 1]) == Recorded(Folded(events[..n]), events[n])
  {
    assert events[..n + 1][..n] == events[..n];
  }

  lemma {:induction false} FoldedIds(events: seq<DurableEvent>, n: nat, i: nat)
    requires Distinct(events) && n <= |events| && i < |events|
    ensures events[i].id in Folded(events[..n]).durable <==> i < n
  {
    if n > 0 {
      FoldedNext(events, n - 1);
      FoldedIds(events, n - 1, i);
    }
  }

  /** Event `i` commits an answer for a key. */
  predicate CommitsAt(events: seq<DurableEvent>, i: nat, key: Key)
    requires i < |events|
  {
    events[i].kind == MessageCommitted && events[i].work == key
  }

  /**
   * The answer for a key is that of the last message committed for it among the first `n` events; it
   * is finalized exactly if there is one; and the events seen are these.
   */
  ghost predicate Records(c: Client, events: seq<DurableEvent>, n: nat, key: Key)
    requires n <= |events|
  {
    && (key in c.answers <==> exists i :: 0 <= i < n && CommitsAt(events, i, key))
    && (key in c.finalized <==> key in c.answers)
    && (forall i :: 0 <= i < n && CommitsAt(events, i, key) && (forall k :: i < k < n ==> !CommitsAt(events, k, key)) ==>
                      key in c.answers && c.answers[key] == events[i].answer)
  }

  lemma RecordsNext(c: Client, events: seq<DurableEvent>, n: nat, key: Key)
    requires n < |events| && Records(c, events, n, key)
    ensures Records(Recorded(c, events[n]), events, n + 1, key)
  {
    var m, next := n + 1, Recorded(c, events[n]);
    assert CommitsAt(events, n, key) <==> events[n].kind == MessageCommitted && events[n].work == key;
    forall i | 0 <= i < m && CommitsAt(events, i, key) && (forall k :: i < k < m ==> !CommitsAt(events, k, key))
      ensures key in next.answers && next.answers[key] == events[i].answer
    {
      if i < n {
        assert !CommitsAt(events, n, key);
      }
    }
  }

  lemma {:induction false} FoldedRecords(events: seq<DurableEvent>, n: nat, key: Key)
    requires n <= |events|
    ensures Records(Folded(events[..n]), events, n, key)
  {
    if n > 0 {
      FoldedRecords(events, n - 1, key);
      FoldedNext(events, n - 1);
      RecordsNext(Folded(events[..n - 1]), events, n - 1, key);
    }
  }

  /**
   * Apart from its drafts, the client is the fold of the first `n` public events, and no draft is
   * of finalized work.
   */
  ghost predicate Caught(c: Client, events: seq<DurableEvent>, n: nat) {
    && n <= |events| && c.(active := map[]) == Folded(events[..n]).(active := map[])
    && forall k :: k in c.active ==> k !in c.finalized
  }

  lemma CaughtRecords(c: Client, events: seq<DurableEvent>, n: nat, key: Key)
    requires Caught(c, events, n)
    ensures Records(c, events, n, key)
  {
    FoldedRecords(events, n, key);
    assert c.answers == Folded(events[..n]).answers && c.finalized == Folded(events[..n]).finalized;
  }

  /** A durable event no further than the next one leaves the client caught up, and further if it is new. */
  lemma DurableCaught(c: Client, events: seq<DurableEvent>, n: nat, m: nat)
    requires Caught(c, events, n) && Distinct(events) && m <= n && m < |events|
    ensures Caught(Applied(c, Durable(events[m])), events, if m == n then n + 1 else n)
  {
    FoldedIds(events, n, m);
    if m == n {
      FoldedNext(events, n);
    }
  }

  lemma OtherCaught(c: Client, events: seq<DurableEvent>, n: nat, f: Frame)
    requires Caught(c, events, n) && !f.Durable?
    ensures Caught(Applied(c, f), events, n)
  {
  }

  function Max(a: nat, b: nat): nat {
    if a < b then b else a
  }

  /** A connection that resumes at or before where the client is takes it to the further of the two ends. */
  lemma {:induction false} FramesCaught(c: Client, events: seq<DurableEvent>, n: nat, start: nat, frames: seq<Frame>)
    requires Caught(c, events, n) && Distinct(events) && start <= n && Durables(frames) <= events[start..]
    ensures Caught(AppliedAll(c, frames), events, Max(n, start + |Durables(frames)|))
  {
    if frames != [] {
      var k := |frames| - 1;
      var before, f := AppliedAll(c, frames[..k]), frames[k];
      FramesCaught(c, events, n, start, frames[..k]);
      var at := Max(n, start + |Durables(frames[..k])|);
      if f.Durable? {
        var m := start + |Durables(frames[..k])|;
        assert f.event == Durables(frames)[|Durables(frames)| - 1] == events[m];
        DurableCaught(before, events, at, m);
      } else {
        OtherCaught(before, events, at, f);
      }
    }
  }

  // ----- following over many connections -----

  /** The frames of a connection other than drafts. */
  function WithoutDrafts(frames: seq<Frame>): seq<Frame> {
    if frames == [] then []
    else
      var k := |frames| - 1;
      if frames[k].Live? then WithoutDrafts(frames[..k]) else WithoutDrafts(frames[..k]) + [frames[k]]
  }

  /** The cursor of the last frame that has one. */
  function LastCursor(frames: seq<Frame>): nat {
    var plain := WithoutDrafts(frames);
    if plain == [] then 0 else CursorOf(plain[|plain| - 1])
  }

  function CursorOf(f: Frame): nat {
    match f
    case Durable(e) => e.cursor
    case Sync(cursor) => cursor
    case Live(_) => 0
  }

  /** How many of some public events have cursors up to `x`: they come first. */
  function Rank(events: seq<DurableEvent>, x: nat): (n: nat)
    ensures n <= |events|
    ensures Rising(events) ==> forall i :: 0 <= i < n ==> events[i].cursor <= x
    ensures Rising(events) ==> forall i :: n <= i < |events| ==> x < events[i].cursor
  {
    if events == [] then 0
    else if events[|events| - 1].cursor <= x then |events|
    else
      assert Rising(events) ==> Rising(events[..|events| - 1]);
      Rank(events[..|events| - 1], x)
  }

  lemma RankMonotone(events: seq<DurableEvent>, x: nat, y: nat)
    requires Rising(events) && x <= y
    ensures Rank(events, x) <= Rank(events, y)
  {
  }

  lemma RankIs(events: seq<DurableEvent>, x: nat, n: nat)
    requires Rising(events) && n <= |events|
    requires n > 0 ==> events[n - 1].cursor <= x
    requires n < |events| ==> x < events[n].cursor
    ensures Rank(events, x) == n
  {
  }

  /** Everything a connection from `after` would send, drafts aside, were `events` all there is. */
  function Script(events: seq<DurableEvent>, after: nat, highWater: nat): seq<Frame> {
    var m, n := Rank(events, after), Rank(events, highWater);
    (if m <= n then Frames(events[m..n]) else []) + [Sync(highWater)] + Frames(events[n..])
  }

  /** One connection as the client saw it: where it resumed, the high water, and the frames that arrived. */
  datatype Session = Session(after: nat, highWater: nat, received: seq<Frame>)

  datatype Following = Following(client: Client, cursor: nat)

  function Follow(sessions: seq<Session>): Following {
    if sessions == [] then Following(BLANK, 0)
    else
      var k := |sessions| - 1;
      var was, s := Follow(sessions[..k]), sessions[k];
      Following(AppliedAll(Reconnected(was.client), s.received), Max(was.cursor, LastCursor(s.received)))
  }

  /** A connection resumes at or before `cursor`, and its frames arrive in order, drafts lost or late at will. */
  ghost predicate Resumed(events: seq<DurableEvent>, cursor: nat, s: Session) {
    s.after <= cursor && s.after <= s.highWater && WithoutDrafts(s.received) <= Script(events, s.after, s.highWater)
  }

  ghost predicate Resumes(events: seq<DurableEvent>, sessions: seq<Session>) {
    sessions == [] ||
    var k := |sessions| - 1;
    Resumes(events, sessions[..k]) && Resumed(events, Follow(sessions[..k]).cursor, sessions[k])
  }

  lemma {:induction false} DurablesWithout(frames: seq<Frame>)
    ensures Durables(WithoutDrafts(frames)) == Durables(frames)
  {
    if frames != [] {
      var k := |frames| - 1;
      DurablesWithout(frames[..k]);
      assert !frames[k].Live? ==> (WithoutDrafts(frames[..k]) + [frames[k]])[..|WithoutDrafts(frames[..k])|] == WithoutDrafts(frames[..k]);
    }
  }

  /** A non-empty initial part of a script ends in its last durable event, or in the handoff after all of `due`. */
  lemma ScriptCut(due: seq<DurableEvent>, later: seq<DurableEvent>, highWater: nat, plain: seq<Frame>)
    requires plain != [] && plain <= Frames(due) + [Sync(highWater)] + Frames(later)
    ensures var last := plain[|plain| - 1];
            && Durables(plain) <= due + later && !last.Live?
            && (last.Sync? ==> last.cursor == highWater && Durables(plain) == due)
            && (last.Durable? ==> Durables(plain) != [] && last.event == (due + later)[|Durables(plain)| - 1])
  {
    if |plain| <= |due| {
      assert plain == Frames(due[..|plain|]);
      DurablesFrames(due[..|plain|]);
    } else {
      var k := |plain| - |due| - 1;
      assert plain == Frames(due) + [Sync(highWater)] + Frames(later[..k]);
      OpeningSplits(due, highWater, Frames(later[..k]));
      DurablesFrames(later[..k]);
    }
  }

  /** The rank of the cursor of the last of `k` events from `m` on, or of a handoff after them. */
  lemma RankAfter(events: seq<DurableEvent>, m: nat, n: nat, highWater: nat, k: nat, last: Frame)
    requires Rising(events) && m <= n == Rank(events, highWater) && k <= |events| - m && !last.Live?
    requires last.Sync? ==> last.cursor == highWater && m + k == n
    requires last.Durable? ==> k > 0 && last.event == events[m + k - 1]
    ensures Rank(events, CursorOf(last)) == m + k
  {
    if last.Durable? {
      RankIs(events, CursorOf(last), m + k);
    }
  }

  /** Where an initial part of a script leaves off. */
  lemma ScriptEnd(events: seq<DurableEvent>, m: nat, n: nat, highWater: nat, plain: seq<Frame>)
    requires Rising(events) && m <= n <= |events| && n == Rank(events, highWater)
    requires plain != [] && plain <= Frames(events[m..n]) + [Sync(highWater)] + Frames(events[n..])
    ensures Durables(plain) <= events[m..]
    ensures Rank(events, CursorOf(plain[|plain| - 1])) == m + |Durables(plain)|
  {
    ScriptCut(events[m..n], events[n..], highWater, plain);
    assert events[m..n] + events[n..] == events[m..];
    RankAfter(events, m, n, highWater, |Durables(plain)|, plain[|plain| - 1]);
  }

  /** Where a connection's frames leave off. */
  lemma SessionReach(events: seq<DurableEvent>, s: Session)
    requires Rising(events) && s.after <= s.highWater && WithoutDrafts(s.received) != []
    requires WithoutDrafts(s.received) <= Script(events, s.after, s.highWater)
    ensures Durables(s.received) <= events[Rank(events, s.after)..]
    ensures Rank(events, LastCursor(s.received)) == Rank(events, s.after) + |Durables(s.received)|
  {
    DurablesWithout(s.received);
    RankMonotone(events, s.after, s.highWater);
    ScriptEnd(events, Rank(events, s.after), Rank(events, s.highWater), s.highWater, WithoutDrafts(s.received));
  }

  lemma RankMax(events: seq<DurableEvent>, a: nat, b: nat)
    requires Rising(events)
    ensures Rank(events, Max(a, b)) == Max(Rank(events, a), Rank(events, b))
  {
  }

  lemma SessionQuiet(received: seq<Frame>)
    requires WithoutDrafts(received) == []
    ensures Durables(received) == [] && LastCursor(received) == 0
  {
  }

  /** Where a session takes the client. */
  ghost predicate Takes(events: seq<DurableEvent>, cursor: nat, s: Session) {
    var start := Rank(events, s.after);
    && start <= Rank(events, cursor) && Durables(s.received) <= events[start..]
    && Rank(events, Max(cursor, LastCursor(s.received))) == Max(Rank(events, cursor), start + |Durables(s.received)|)
  }

  lemma QuietTakes(events: seq<DurableEvent>, cursor: nat, s: Session)
    requires Rising(events) && s.after <= cursor && WithoutDrafts(s.received) == []
    ensures Takes(events, cursor, s)
  {
    RankMonotone(events, s.after, cursor);
    SessionQuiet(s.received);
  }

  lemma SessionTakes(events: seq<DurableEvent>, cursor: nat, s: Session)
    requires Rising(events) && Resumed(events, cursor, s)
    ensures Takes(events, cursor, s)
  {
    if WithoutDrafts(s.received) == [] {
      QuietTakes(events, cursor, s);
    } else {
      RankMonotone(events, s.after, cursor);
      SessionReach(events, s);
      RankMax(events, cursor, LastCursor(s.received));
    }
  }

  lemma ReconnectedCaught(c: Client, events: seq<DurableEvent>, n: nat)
    requires Caught(c, events, n)
    ensures Caught(Reconnected(c), events, n)
  {
  }

  lemma SessionCaught(events: seq<DurableEvent>, c: Client, cursor: nat, s: Session)
    requires Distinct(events) && Takes(events, cursor, s) && Caught(c, events, Rank(events, cursor))
    ensures Caught(AppliedAll(Reconnected(c), s.received), events, Rank(events, Max(cursor, LastCursor(s.received))))
  {
    ReconnectedCaught(c, events, Rank(events, cursor));
    FramesCaught(Reconnected(c), events, Rank(events, cursor), Rank(events, s.after), s.received);
  }

  /**
   * However often the client reconnects, from any cursor up to its own, and whatever becomes of
   * drafts, its answers and finalized works are those of one fold over the public events up to its
   * cursor, and it holds no draft for finalized work.
   */
  lemma {:induction false} Converges(events: seq<DurableEvent>, sessions: seq<Session>)
    requires Rising(events) && Distinct(events) && Resumes(events, sessions)
    requires forall i :: 0 <= i < |events| ==> events[i].cursor > 0
    ensures var f := Follow(sessions);
            && Caught(f.client, events, Rank(events, f.cursor))
            && f.client.answers == Folded(events[..Rank(events, f.cursor)]).answers
  {
    if sessions == [] {
      RankIs(events, 0, 0);
    } else {
      var k := |sessions| - 1;
      Converges(events, sessions[..k]);
      SessionTakes(events, Follow(sessions[..k]).cursor, sessions[k]);
      SessionCaught(events, Follow(sessions[..k]).client, Follow(sessions[..k]).cursor, sessions[k]);
    }
  }

  // ----- connections as sessions -----

  /** The public events of a range are a stretch of all public events. */
  lemma Stretch(j: seq<Row>, project: Row -> Shape, x: nat)
    requires Sorted(j) && Faithful(project) && x <= HighWater(j)
    ensures var events, n := Public(j, project, 0, HighWater(j)), Rank(Public(j, project, 0, HighWater(j)), x);
            Public(j, project, 0, x) == events[..n] && Public(j, project, x, HighWater(j)) == events[n..]
  {
    PublicSplit(j, project, 0, x, HighWater(j));
    PublicRising(j, project, 0, HighWater(j));
    PublicRising(j, project, 0, x);
    PublicRising(j, project, x, HighWater(j));
    RankIs(Public(j, project, 0, HighWater(j)), x, |Public(j, project, 0, x)|);
  }

  /** Between two prefixes of a sequence lies what the longer one adds. */
  lemma Between(events: seq<DurableEvent>, m: nat, n: nat, middle: seq<DurableEvent>)
    requires m <= n <= |events| && events[..n] == events[..m] + middle
    ensures events[m..n] == middle
  {
    assert events[m..n] == events[..n][m..];
  }

  /** The public events of a range lie between the ranks of its ends. */
  lemma ScriptRange(j: seq<Row>, project: Row -> Shape, after: nat, highWater: nat)
    requires Sorted(j) && Faithful(project) && after <= highWater <= HighWater(j)
    ensures var events := Public(j, project, 0, HighWater(j));
            var m, n := Rank(events, after), Rank(events, highWater);
            m <= n && events[m..n] == Public(j, project, after, highWater)
  {
    var events := Public(j, project, 0, HighWater(j));
    PublicRising(j, project, 0, HighWater(j));
    RankMonotone(events, after, highWater);
    Stretch(j, project, after);
    Stretch(j, project, highWater);
    PublicSplit(j, project, 0, after, highWater);
    Between(events, Rank(events, after), Rank(events, highWater), Public(j, project, after, highWater));
  }

  /** A script over all public events is what a connection would send of the journal. */
  lemma ScriptIs(j: seq<Row>, project: Row -> Shape, after: nat, highWater: nat)
    requires Sorted(j) && Faithful(project) && after <= highWater <= HighWater(j)
    ensures Script(Public(j, project, 0, HighWater(j)), after, highWater) ==
            Opening(j, project, after, highWater) + Frames(Public(j, project, highWater, HighWater(j)))
  {
    ScriptRange(j, project, after, highWater);
    Stretch(j, project, highWater);
  }

  lemma {:induction false} PlainFrames(frames: seq<Frame>)
    requires forall i :: 0 <= i < |frames| ==> !frames[i].Live?
    ensures WithoutDrafts(frames) == frames
  {
    if frames != [] {
      PlainFrames(frames[..|frames| - 1]);
    }
  }

  lemma {:induction false} WithoutTail(tail: seq<Frame>)
    requires NoSync(tail)
    ensures WithoutDrafts(tail) == Frames(Durables(tail))
  {
    if tail != [] {
      WithoutTail(tail[..|tail| - 1]);
    }
  }

  lemma {:induction false} WithoutConcat(x: seq<Frame>, y: seq<Frame>)
    ensures WithoutDrafts(x + y) == WithoutDrafts(x) + WithoutDrafts(y)
  {
    if y == [] {
      assert x + y == x;
    } else {
      var k := |y| - 1;
      assert (x + y)[..|x + y| - 1] == x + y[..k];
      WithoutConcat(x, y[..k]);
    }
  }

  lemma OpeningPlain(due: seq<DurableEvent>, highWater: nat, tail: seq<Frame>, later: seq<DurableEvent>)
    requires NoSync(tail) && Durables(tail) <= later
    ensures WithoutDrafts(Frames(due) + [Sync(highWater)] + tail) <= Frames(due) + [Sync(highWater)] + Frames(later)
  {
    var opening := Frames(due) + [Sync(highWater)];
    WithoutConcat(opening, tail);
    PlainFrames(opening);
    WithoutTail(tail);
    assert Frames(Durables(tail)) <= Frames(later);
  }

  lemma EitherPlain(due: seq<DurableEvent>, later: seq<DurableEvent>, highWater: nat, sent: seq<Frame>)
    requires var opening := Frames(due) + [Sync(highWater)];
             || sent <= Frames(due)
             || (opening <= sent && NoSync(sent[|opening|..]) && Durables(sent[|opening|..]) <= later)
    ensures WithoutDrafts(sent) <= Frames(due) + [Sync(highWater)] + Frames(later)
  {
    if sent <= Frames(due) {
      PlainFrames(sent);
    } else {
      var opening := Frames(due) + [Sync(highWater)];
      OpeningPlain(due, highWater, sent[|opening|..], later);
      assert sent == opening + sent[|opening|..];
    }
  }

  /** What a connection has delivered is, drafts aside, an initial part of its script. */
  lemma DeliveredScript(env: Env, t: nat, after: nat, highWater: nat, sent: seq<Frame>)
    requires Lawful(env) && after <= highWater <= HighWater(env.journal(t)) && Delivered(env, t, after, highWater, sent)
    ensures var j := env.journal(t); WithoutDrafts(sent) <= Script(Public(j, env.project, 0, HighWater(j)), after, highWater)
  {
    var j := env.journal(t);
    var due, later := Public(j, env.project, after, highWater), Public(j, env.project, highWater, HighWater(j));
    ScriptIs(j, env.project, after, highWater);
    EitherPlain(due, later, highWater, sent);
  }

  // ----- a client over many connections -----

  /** All that is public at time `u`. */
  ghost function AllPublic(env: Env, u: nat): seq<DurableEvent> {
    Public(env.journal(u), env.project, 0, HighWater(env.journal(u)))
  }

  /** The script of a connection only grows as the journal does. */
  lemma ScriptGrows(env: Env, t: nat, u: nat, after: nat, highWater: nat)
    requires Lawful(env) && t <= u && after <= highWater <= HighWater(env.journal(t))
    ensures Script(AllPublic(env, t), after, highWater) <= Script(AllPublic(env, u), after, highWater)
  {
    var j, k := env.journal(t), env.journal(u);
    HighWaterGrows(env, t, u);
    ScriptIs(j, env.project, after, highWater);
    ScriptIs(k, env.project, after, highWater);
    PublicStable(env, t, u, after, highWater);
    PublicStable(env, t, u, highWater, HighWater(j));
    PublicSplit(k, env.project, highWater, HighWater(j), HighWater(k));
    FramesConcat(Public(k, env.project, highWater, HighWater(j)), Public(k, env.project, HighWater(j), HighWater(k)));
    Associates(Opening(k, env.project, after, highWater), Frames(Public(k, env.project, highWater, HighWater(j))),
               Frames(Public(k, env.project, HighWater(j), HighWater(k))));
  }

  /** The connection behind a session: when it ended, and all it sent. */
  datatype Link = Link(ended: nat, sent: seq<Frame>)

  /** A session is what arrived, drafts lost or late at will, of what a connection from `after` delivered. */
  ghost predicate Carried(env: Env, u: nat, s: Session, link: Link) {
    && link.ended <= u && s.after <= s.highWater <= HighWater(env.journal(link.ended))
    && Delivered(env, link.ended, s.after, s.highWater, link.sent)
    && WithoutDrafts(s.received) <= WithoutDrafts(link.sent)
  }

  /** Every session was carried by a connection, and resumed from a cursor up to the client's own. */
  ghost predicate Followed(env: Env, u: nat, sessions: seq<Session>, links: seq<Link>) {
    && |sessions| == |links|
    && (sessions == [] ||
        var k := |sessions| - 1;
        Followed(env, u, sessions[..k], links[..k]) && Carried(env, u, sessions[k], links[k])
        && sessions[k].after <= Follow(sessions[..k]).cursor)
  }

  lemma CarriedResumes(env: Env, u: nat, cursor: nat, s: Session, link: Link)
    requires Lawful(env) && Carried(env, u, s, link) && s.after <= cursor
    ensures Resumed(AllPublic(env, u), cursor, s)
  {
    DeliveredScript(env, link.ended, s.after, s.highWater, link.sent);
    ScriptGrows(env, link.ended, u, s.after, s.highWater);
  }

  lemma {:induction false} FollowedResumes(env: Env, u: nat, sessions: seq<Session>, links: seq<Link>)
    requires Lawful(env) && Followed(env, u, sessions, links)
    ensures Resumes(AllPublic(env, u), sessions)
  {
    if sessions != [] {
      var k := |sessions| - 1;
      FollowedResumes(env, u, sessions[..k], links[..k]);
      CarriedResumes(env, u, Follow(sessions[..k]).cursor, sessions[k], links[k]);
    }
  }

  /**
   * A client that follows a growing journal over any number of connections, each at its own time,
   * failing anywhere and resumed from any cursor up to the client's own, ends with the answers of one
   * fold over what is public up to its cursor, and holds no draft for finalized work.
   */
  lemma ConnectionsConverge(env: Env, u: nat, sessions: seq<Session>, links: seq<Link>)
    requires Lawful(env) && Followed(env, u, sessions, links) && Distinct(AllPublic(env, u))
    ensures var f, events := Follow(sessions), AllPublic(env, u);
            && Caught(f.client, events, Rank(events, f.cursor))
            && f.client.answers == Folded(events[..Rank(events, f.cursor)]).answers
            && (forall key :: Records(f.client, events, Rank(events, f.cursor), key))
  {
    PublicRising(env.journal(u), env.project, 0, HighWater(env.journal(u)));
    FollowedResumes(env, u, sessions, links);
    Converges(AllPublic(env, u), sessions);
    var f, events := Follow(sessions), AllPublic(env, u);
    forall key ensures Records(f.client, events, Rank(events, f.cursor), key) {
      CaughtRecords(f.client, events, Rank(events, f.cursor), key);
    }
  }
}
