/** The durable journal, its public events, and the pages a replay reads. */
module PublicJournal {
  import opened Prelude

  type Work = nat

  datatype EventType = MessageCommitted | WorkCompleted | WorkCancelled | WorkFailed | WorkInterrupted | OtherEvent

  datatype DurableEvent = DurableEvent(cursor: nat, id: nat, kind: EventType, work: Option<Work>, answer: string)
  {
    /** The work this event is the last word on. */
    function Finalizes(): Option<Work> {
      if kind == OtherEvent then None else work
    }
  }

  datatype Row = Row(offset: nat, body: nat)

  /** What a row is to clients: nothing, an event, or a row that cannot be published. */
  datatype Shape = Hidden | Shown(event: DurableEvent) | Broken

  const REPLAY_PAGE_ROWS: nat := 128

  ghost predicate Sorted(j: seq<Row>) {
    && (forall i :: 0 <= i < |j| ==> j[i].offset > 0)
    && (forall i, k :: 0 <= i < k < |j| ==> j[i].offset < j[k].offset)
  }

  function HighWater(j: seq<Row>): nat {
    if j == [] then 0 else j[|j| - 1].offset
  }

  /** How many rows of a journal have offsets up to `x`: they come first. */
  function Upto(j: seq<Row>, x: nat): (n: nat)
    ensures n <= |j|
    ensures Sorted(j) ==> (forall i :: 0 <= i < n ==> j[i].offset <= x) && (forall i :: n <= i < |j| ==> x < j[i].offset)
  {
    if j == [] then 0
    else if j[|j| - 1].offset <= x then |j|
    else
      assert Sorted(j) ==> Sorted(j[..|j| - 1]);
      Upto(j[..|j| - 1], x)
  }

  /** The rows with offsets in (after, through], in order. */
  function Select(j: seq<Row>, after: nat, through: nat): seq<Row> {
    var a, b := Upto(j, after), Upto(j, through);
    if a <= b then j[a..b] else []
  }

  function Published(rows: seq<Row>, project: Row -> Shape): seq<DurableEvent> {
    if rows == [] then []
    else
      var k := |rows| - 1;
      Published(rows[..k], project) + if project(rows[k]).Shown? then [project(rows[k]).event] else []
  }

  /** The public events in (after, through]. */
  function Public(j: seq<Row>, project: Row -> Shape, after: nat, through: nat): seq<DurableEvent> {
    Published(Select(j, after, through), project)
  }

  // ----- selections -----

  lemma UptoUnique(j: seq<Row>, x: nat, n: nat)
    requires Sorted(j) && n <= |j|
    requires n > 0 ==> j[n - 1].offset <= x
    requires n < |j| ==> x < j[n].offset
    ensures Upto(j, x) == n
  {
  }

  lemma UptoMonotone(j: seq<Row>, x: nat, y: nat)
    requires Sorted(j) && x <= y
    ensures Upto(j, x) <= Upto(j, y)
  {
  }

  /** A selection is exactly the rows of the journal in its range. */
  lemma SelectExact(j: seq<Row>, a: nat, b: nat, i: nat)
    requires Sorted(j) && i < |j|
    ensures a < j[i].offset <= b <==> Upto(j, a) <= i < Upto(j, b)
  {
  }

  lemma SelectSplit(j: seq<Row>, a: nat, b: nat, c: nat)
    requires Sorted(j) && a <= b <= c
    ensures Select(j, a, c) == Select(j, a, b) + Select(j, b, c)
  {
    UptoMonotone(j, a, b);
    UptoMonotone(j, b, c);
  }

  lemma SelectSorted(j: seq<Row>, a: nat, b: nat)
    requires Sorted(j)
    ensures Sorted(Select(j, a, b))
    ensures forall i :: 0 <= i < |Select(j, a, b)| ==> a < Select(j, a, b)[i].offset <= b
  {
  }

  /** What is at or below the high water never changes. */
  lemma SelectStable(j: seq<Row>, k: seq<Row>, a: nat, b: nat)
    requires Sorted(j) && Sorted(k) && j <= k && a <= b <= HighWater(j)
    ensures Select(j, a, b) == Select(k, a, b)
  {
    UptoMonotone(j, a, b);
    assert j == k[..|j|];
    UptoStable(j, k, a);
    UptoStable(j, k, b);
  }

  lemma UptoStable(j: seq<Row>, k: seq<Row>, x: nat)
    requires Sorted(j) && Sorted(k) && j <= k && x <= HighWater(j)
    ensures Upto(j, x) == Upto(k, x)
  {
  }

  lemma {:induction false} PublishedConcat(x: seq<Row>, y: seq<Row>, project: Row -> Shape)
    ensures Published(x + y, project) == Published(x, project) + Published(y, project)
  {
    if y == [] {
      assert x + y == x;
    } else {
      var k := |y| - 1;
      assert (x + y)[..|x + y| - 1] == x + y[..k];
      PublishedConcat(x, y[..k], project);
    }
  }

  lemma PublishedNext(rows: seq<Row>, k: nat, project: Row -> Shape)
    requires k < |rows|
    ensures Published(rows[..k + 1], project) ==
            Published(rows[..k], project) + if project(rows[k]).Shown? then [project(rows[k]).event] else []
  {
    assert rows[..k + 1][..k] == rows[..k];
  }

  lemma PublicSplit(j: seq<Row>, project: Row -> Shape, a: nat, b: nat, c: nat)
    requires Sorted(j) && a <= b <= c
    ensures Public(j, project, a, c) == Public(j, project, a, b) + Public(j, project, b, c)
  {
    SelectSplit(j, a, b, c);
    PublishedConcat(Select(j, a, b), Select(j, b, c), project);
  }

  ghost predicate Faithful(project: Row -> Shape) {
    forall r :: project(r).Shown? ==> project(r).event.cursor == r.offset
  }

  ghost predicate Rising(events: seq<DurableEvent>) {
    forall i, k :: 0 <= i < k < |events| ==> events[i].cursor < events[k].cursor
  }

  /** Public events come in strictly increasing cursor order, within the range of their rows. */
  lemma {:induction false} PublishedRising(rows: seq<Row>, project: Row -> Shape, a: nat, b: nat)
    requires Sorted(rows) && Faithful(project) && forall i :: 0 <= i < |rows| ==> a < rows[i].offset <= b
    ensures Rising(Published(rows, project))
    ensures forall i :: 0 <= i < |Published(rows, project)| ==> a < Published(rows, project)[i].cursor <= b
  {
    if rows != [] {
      var k := |rows| - 1;
      PublishedRising(rows[..k], project, a, if k == 0 then a else rows[k - 1].offset);
    }
  }

  lemma PublicRising(j: seq<Row>, project: Row -> Shape, a: nat, b: nat)
    requires Sorted(j) && Faithful(project)
    ensures Rising(Public(j, project, a, b))
    ensures forall i :: 0 <= i < |Public(j, project, a, b)| ==> a < Public(j, project, a, b)[i].cursor <= b
  {
    SelectSorted(j, a, b);
    PublishedRising(Select(j, a, b), project, a, b);
  }

  // ----- pages -----

  datatype JournalPage = JournalPage(candidates: seq<Row>, scannedThrough: nat, hasMore: bool)

  datatype ReplayPage = ReplayPage(events: seq<DurableEvent>, scannedThrough: nat, hasMore: bool)

  datatype PublicationError = Inconsistent | Unpublishable

  /** The first rows of a selection are the selection up to the last of them. */
  lemma SelectTake(j: seq<Row>, a: nat, b: nat, n: nat)
    requires Sorted(j) && 0 < n <= |Select(j, a, b)|
    ensures var last := Select(j, a, b)[n - 1].offset;
            a < last <= b && Select(j, a, b)[..n] == Select(j, a, last) && Select(j, a, b)[n..] == Select(j, last, b)
  {
    var at := Upto(j, a) + n - 1;
    UptoUnique(j, j[at].offset, at + 1);
  }

  lemma SelectEmpty(j: seq<Row>, a: nat)
    ensures Select(j, a, a) == []
  {
  }

  /** The first `n` rows, or all. */
  function First(rows: seq<Row>, n: nat): seq<Row> {
    if |rows| <= n then rows else rows[..n]
  }

  /** One page of journal rows: as many as the limit allows, and everything up to where the page says it scanned. */
  method ListReplayPage(j: seq<Row>, after: nat, through: nat, limit: nat)
    returns (r: Result<JournalPage, PublicationError>)
    requires Sorted(j)
    ensures r.Ok? <==> 0 < limit <= REPLAY_PAGE_ROWS && after < through
    ensures r.Ok? ==>
              && after < r.value.scannedThrough <= through
              && r.value.candidates == Select(j, after, r.value.scannedThrough) == First(Select(j, after, through), limit)
              && (r.value.hasMore <==> Select(j, r.value.scannedThrough, through) != [])
              && (!r.value.hasMore ==> r.value.scannedThrough == through)
  {
    if limit == 0 || limit > REPLAY_PAGE_ROWS {
      return Err(Inconsistent);
    }
    if after >= through {
      return Err(Inconsistent);
    }
    var rows := Select(j, after, through);
    var candidates := if |rows| <= limit then rows else rows[..limit];
    if candidates == [] {
      SelectEmpty(j, through);
      return Ok(JournalPage(candidates, through, false));
    }
    SelectTake(j, after, through, |candidates|);
    var last := candidates[|candidates| - 1].offset;
    var hasMore := Select(j, last, through) != [];
    if !hasMore {
      SelectEmpty(j, through);
      assert rows[..|rows|] == rows;
    }
    return Ok(JournalPage(candidates, if hasMore then last else through, hasMore));
  }

  /** The first `n` rows come in order, after `after` and up to `through`. */
  ghost predicate Ascending(after: nat, rows: seq<Row>, through: nat, n: nat) {
    forall k :: 0 <= k < |rows| && k < n ==> AscendsAt(after, rows, through, k)
  }

  predicate AscendsAt(after: nat, rows: seq<Row>, through: nat, k: nat)
    requires k < |rows|
  {
    (if k == 0 then after else rows[k - 1].offset) < rows[k].offset <= through
  }

  /**
   * Projects a page to the events of its publishable rows, in order, or refuses an inconsistent or
   * unpublishable one.
   */
  method ProjectReplayPage(after: nat, through: nat, page: JournalPage, project: Row -> Shape)
    returns (r: Result<ReplayPage, PublicationError>)
    ensures r.Ok? <==>
            && after <= page.scannedThrough <= through
            && Ascending(after, page.candidates, page.scannedThrough, |page.candidates|)
            && forall i :: 0 <= i < |page.candidates| ==> project(page.candidates[i]) != Broken
    ensures r.Ok? ==> r.value == ReplayPage(Published(page.candidates, project), page.scannedThrough, page.hasMore)
  {
    if page.scannedThrough < after || page.scannedThrough > through {
      return Err(Inconsistent);
    }
    var events, prior, k := [], after, 0;
    while k < |page.candidates|
      invariant k <= |page.candidates| && Ascending(after, page.candidates, page.scannedThrough, k)
      invariant prior == if k == 0 then after else page.candidates[k - 1].offset
      invariant events == Published(page.candidates[..k], project)
      invariant forall i :: 0 <= i < k ==> project(page.candidates[i]) != Broken
    {
      var c := page.candidates[k];
      assert AscendsAt(after, page.candidates, page.scannedThrough, k) <==> prior < c.offset <= page.scannedThrough;
      if c.offset <= prior || c.offset > page.scannedThrough {
        return Err(Inconsistent);
      }
      prior := c.offset;
      var shape := project(c);
      if shape == Broken {
        return Err(Unpublishable);
      }
      PublishedNext(page.candidates, k, project);
      if shape.Shown? {
        events := events + [shape.event];
      }
      k := k + 1;
    }
    assert page.candidates[..k] == page.candidates;
    return Ok(ReplayPage(events, page.scannedThrough, page.hasMore));
  }

  lemma SelectPrefix(j: seq<Row>, a: nat, b: nat, c: nat)
    requires Sorted(j) && a <= b <= c
    ensures Select(j, a, b) <= Select(j, a, c)
  {
    SelectSplit(j, a, b, c);
  }

  /** A replay page holds all public events in (after, scannedThrough], and moves forward. */
  method ReadReplayPage(j: seq<Row>, project: Row -> Shape, after: nat, through: nat)
    returns (r: Result<ReplayPage, PublicationError>)
    requires Sorted(j)
    ensures r.Ok? ==>
              && after < r.value.scannedThrough <= through
              && r.value.events == Public(j, project, after, r.value.scannedThrough)
              && (!r.value.hasMore ==> r.value.scannedThrough == through)
    ensures var rows := First(Select(j, after, through), REPLAY_PAGE_ROWS);
            r.Ok? <==> after < through && forall i :: 0 <= i < |rows| ==> project(rows[i]) != Broken
  {
    if through == 0 || after > through {
      return Err(Inconsistent);
    }
    var listed := ListReplayPage(j, after, through, REPLAY_PAGE_ROWS);
    if listed.Err? {
      return Err(listed.error);
    }
    SelectSorted(j, after, listed.value.scannedThrough);
    SelectPrefix(j, after, listed.value.scannedThrough, through);
    r := ProjectReplayPage(after, through, listed.value, project);
  }
}
