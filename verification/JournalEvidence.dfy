/** The framed stream of a journal's rows, its rolling checkpoints, and what comparing two of them shows. */
module JournalEvidence {
  import opened Prelude
  import opened Framing
  import opened ReplayCursor

  // ----- the framed stream -----

  /** A SQLite value: text stands by its UTF-8 bytes and a float by its hexadecimal text. */
  datatype Value = Null | Integer(i: int) | Float(hex: Bytes) | Text(utf8: Bytes) | Blob(bytes: Bytes)
  {
    function Tag(): byte {
      match this
      case Null => 0x4E
      case Integer(_) => 0x49
      case Float(_) => 0x46
      case Text(_) => 0x53
      case Blob(_) => 0x42
    }

    function Body(): Bytes {
      match this
      case Null => []
      case Integer(i) => Signed(i)
      case Float(hex) => hex
      case Text(utf8) => utf8
      case Blob(bytes) => bytes
    }
  }

  type Row = seq<Value>

  function Signed(i: int): Bytes {
    if i < 0 then [0x2D] + Print(-i) else Print(i)
  }

  lemma SignedInjective(i: int, j: int)
    requires Signed(i) == Signed(j)
    ensures i == j
  {
    var m, n: nat := if i < 0 then -i else i, if j < 0 then -j else j;
    PrintCanonical(m);
    PrintCanonical(n);
    assert i < 0 ==> Signed(i)[0] == 0x2D && Signed(i)[1..] == Print(m);
    assert j < 0 ==> Signed(j)[0] == 0x2D && Signed(j)[1..] == Print(n);
    assert i >= 0 ==> IsDigit(Signed(i)[0]);
    assert j >= 0 ==> IsDigit(Signed(j)[0]);
    PrintInjective(m, n);
  }

  const TABLE: byte := 0x54
  const COLUMN: byte := 0x43
  const ROW: byte := 0x52

  /** "journal_events" */
  const JOURNAL_EVENTS: Bytes :=
    [0x6A, 0x6F, 0x75, 0x72, 0x6E, 0x61, 0x6C, 0x5F, 0x65, 0x76, 0x65, 0x6E, 0x74, 0x73]
  /** "journal_offset" */
  const JOURNAL_OFFSET: Bytes :=
    [0x6A, 0x6F, 0x75, 0x72, 0x6E, 0x61, 0x6C, 0x5F, 0x6F, 0x66, 0x66, 0x73, 0x65, 0x74]

  function Field(tag: byte, body: Bytes): Bytes
    requires |body| < U64
  {
    [tag] + Framed(body)
  }

  ghost predicate ValuesSized(row: Row) {
    forall i :: 0 <= i < |row| ==> |row[i].Body()| < U64
  }

  ghost predicate RowsSized(rows: seq<Row>) {
    forall i :: 0 <= i < |rows| ==> ValuesSized(rows[i])
  }

  ghost predicate NamesSized(columns: seq<Bytes>) {
    forall i :: 0 <= i < |columns| ==> |columns[i]| < U64
  }

  ghost function ValuesBytes(row: Row): Bytes
    requires ValuesSized(row)
  {
    if row == [] then [] else Field(row[0].Tag(), row[0].Body()) + ValuesBytes(row[1..])
  }

  ghost function RowsBytes(rows: seq<Row>): Bytes
    requires RowsSized(rows)
  {
    if rows == [] then [] else [ROW] + ValuesBytes(rows[0]) + RowsBytes(rows[1..])
  }

  ghost function ColumnsBytes(columns: seq<Bytes>): Bytes
    requires NamesSized(columns)
  {
    if columns == [] then [] else Field(COLUMN, columns[0]) + ColumnsBytes(columns[1..])
  }

  /** All the bytes the running digest has been fed. */
  ghost function Stream(columns: seq<Bytes>, rows: seq<Row>): Bytes
    requires NamesSized(columns) && RowsSized(rows)
  {
    Field(TABLE, JOURNAL_EVENTS) + (ColumnsBytes(columns) + RowsBytes(rows))
  }

  // ----- unique decodability -----

  lemma FieldCancels(t: byte, a: Bytes, x: Bytes, u: byte, b: Bytes, y: Bytes)
    requires |a| < U64 && |b| < U64 && Field(t, a) + x == Field(u, b) + y
    ensures t == u && a == b && x == y
  {
    TagCancels(t, Framed(a), x, u, Framed(b), y);
    FramedCancels(a, x, b, y);
  }

  lemma ValueCancels(v: Value, x: Bytes, w: Value, y: Bytes)
    requires |v.Body()| < U64 && |w.Body()| < U64
    requires Field(v.Tag(), v.Body()) + x == Field(w.Tag(), w.Body()) + y
    ensures v == w && x == y
  {
    FieldCancels(v.Tag(), v.Body(), x, w.Tag(), w.Body(), y);
    if v.Integer? {
      SignedInjective(v.i, w.i);
    }
  }

  /** What may follow the values of a row, or the names of the columns. */
  predicate Breaks(x: Bytes) {
    x == [] || x[0] == ROW
  }

  /** Values never look like what may follow them. */
  lemma ValuesStart(v: Row, x: Bytes)
    requires ValuesSized(v) && Breaks(x)
    ensures Breaks(ValuesBytes(v) + x) <==> v == []
  {
  }

  lemma {:induction false} ValuesCancel(v: Row, x: Bytes, w: Row, y: Bytes)
    requires ValuesSized(v) && ValuesSized(w) && Breaks(x) && Breaks(y) && ValuesBytes(v) + x == ValuesBytes(w) + y
    ensures v == w && x == y
  {
    ValuesStart(v, x);
    ValuesStart(w, y);
    if v == [] {
      assert [] + x == x && [] + y == y;
    } else {
      Associates(Field(v[0].Tag(), v[0].Body()), ValuesBytes(v[1..]), x);
      Associates(Field(w[0].Tag(), w[0].Body()), ValuesBytes(w[1..]), y);
      ValueCancels(v[0], ValuesBytes(v[1..]) + x, w[0], ValuesBytes(w[1..]) + y);
      ValuesCancel(v[1..], x, w[1..], y);
      assert v == [v[0]] + v[1..] && w == [w[0]] + w[1..];
    }
  }

  lemma RowsBreak(rows: seq<Row>)
    requires RowsSized(rows)
    ensures Breaks(RowsBytes(rows)) && (RowsBytes(rows) == [] <==> rows == [])
  {
  }

  /** A stream of rows decodes in one way only. */
  lemma {:induction false} RowsInjective(v: seq<Row>, w: seq<Row>)
    requires RowsSized(v) && RowsSized(w) && RowsBytes(v) == RowsBytes(w)
    ensures v == w
  {
    RowsBreak(v);
    RowsBreak(w);
    if v != [] {
      RowsBreak(v[1..]);
      RowsBreak(w[1..]);
      TagCancels(ROW, ValuesBytes(v[0]), RowsBytes(v[1..]), ROW, ValuesBytes(w[0]), RowsBytes(w[1..]));
      ValuesCancel(v[0], RowsBytes(v[1..]), w[0], RowsBytes(w[1..]));
      RowsInjective(v[1..], w[1..]);
      assert v == [v[0]] + v[1..] && w == [w[0]] + w[1..];
    }
  }

  lemma ColumnsStart(c: seq<Bytes>, x: Bytes)
    requires NamesSized(c) && Breaks(x)
    ensures Breaks(ColumnsBytes(c) + x) <==> c == []
  {
  }

  lemma {:induction false} ColumnsCancel(c: seq<Bytes>, x: Bytes, d: seq<Bytes>, y: Bytes)
    requires NamesSized(c) && NamesSized(d) && Breaks(x) && Breaks(y) && ColumnsBytes(c) + x == ColumnsBytes(d) + y
    ensures c == d && x == y
  {
    ColumnsStart(c, x);
    ColumnsStart(d, y);
    if c == [] {
      assert [] + x == x && [] + y == y;
    } else {
      Associates(Field(COLUMN, c[0]), ColumnsBytes(c[1..]), x);
      Associates(Field(COLUMN, d[0]), ColumnsBytes(d[1..]), y);
      FieldCancels(COLUMN, c[0], ColumnsBytes(c[1..]) + x, COLUMN, d[0], ColumnsBytes(d[1..]) + y);
      ColumnsCancel(c[1..], x, d[1..], y);
      assert c == [c[0]] + c[1..] && d == [d[0]] + d[1..];
    }
  }

  /** The framed stream determines the columns and the rows. */
  lemma StreamInjective(c: seq<Bytes>, v: seq<Row>, d: seq<Bytes>, w: seq<Row>)
    requires NamesSized(c) && RowsSized(v) && NamesSized(d) && RowsSized(w)
    ensures Stream(c, v) == Stream(d, w) <==> c == d && v == w
  {
    if Stream(c, v) == Stream(d, w) {
      var head := Field(TABLE, JOURNAL_EVENTS);
      PrefixCancels(head, ColumnsBytes(c) + RowsBytes(v), head, ColumnsBytes(d) + RowsBytes(w));
      RowsBreak(v);
      RowsBreak(w);
      ColumnsCancel(c, RowsBytes(v), d, RowsBytes(w));
      RowsInjective(v, w);
    }
  }

  // ----- building the stream -----

  lemma {:induction false} ValuesAppend(row: Row, k: nat)
    requires k < |row| && ValuesSized(row)
    ensures ValuesBytes(row[..k + 1]) == ValuesBytes(row[..k]) + Field(row[k].Tag(), row[k].Body())
    decreases k
  {
    if k == 0 {
      assert row[..1][1..] == [];
    } else {
      ValuesAppend(row[1..], k - 1);
      assert row[..k + 1][1..] == row[1..][..k] && row[..k][1..] == row[1..][..k - 1];
      Associates(Field(row[0].Tag(), row[0].Body()), ValuesBytes(row[1..][..k - 1]),
                 Field(row[k].Tag(), row[k].Body()));
    }
  }

  lemma {:induction false} ColumnsAppend(columns: seq<Bytes>, k: nat)
    requires k < |columns| && NamesSized(columns)
    ensures ColumnsBytes(columns[..k + 1]) == ColumnsBytes(columns[..k]) + Field(COLUMN, columns[k])
    decreases k
  {
    if k == 0 {
      assert columns[..1][1..] == [];
    } else {
      ColumnsAppend(columns[1..], k - 1);
      assert columns[..k + 1][1..] == columns[1..][..k] && columns[..k][1..] == columns[1..][..k - 1];
      Associates(Field(COLUMN, columns[0]), ColumnsBytes(columns[1..][..k - 1]), Field(COLUMN, columns[k]));
    }
  }

  lemma {:induction false} RowsAppend(rows: seq<Row>, k: nat)
    requires k < |rows| && RowsSized(rows)
    ensures RowsBytes(rows[..k + 1]) == RowsBytes(rows[..k]) + ([ROW] + ValuesBytes(rows[k]))
    decreases k
  {
    if k == 0 {
      assert rows[..1][1..] == [];
      assert [ROW] + ValuesBytes(rows[0]) + [] == [ROW] + ValuesBytes(rows[0]);
    } else {
      RowsAppend(rows[1..], k - 1);
      assert rows[..k + 1][1..] == rows[1..][..k] && rows[..k][1..] == rows[1..][..k - 1];
      Associates([ROW] + ValuesBytes(rows[0]), RowsBytes(rows[1..][..k - 1]), [ROW] + ValuesBytes(rows[k]));
    }
  }

  lemma StreamAppend(columns: seq<Bytes>, rows: seq<Row>, k: nat)
    requires NamesSized(columns) && RowsSized(rows) && k < |rows|
    ensures Stream(columns, rows[..k + 1]) == Stream(columns, rows[..k]) + ([ROW] + ValuesBytes(rows[k]))
  {
    RowsAppend(rows, k);
    Associates(ColumnsBytes(columns), RowsBytes(rows[..k]), [ROW] + ValuesBytes(rows[k]));
    Associates(Field(TABLE, JOURNAL_EVENTS), ColumnsBytes(columns) + RowsBytes(rows[..k]),
               [ROW] + ValuesBytes(rows[k]));
  }

  /** Feeds one tagged, framed value to the digest. */
  method UpdateFramed(digest: Bytes, tag: byte, value: Bytes) returns (after: Bytes)
    requires |value| < U64
    ensures after == digest + Field(tag, value)
  {
    Powers();
    after := digest + [tag];
    after := after + BigEndian(|value|, 8);
    after := after + value;
    Associates(digest + [tag], BigEndian(|value|, 8), value);
    Associates(digest, [tag], Framed(value));
  }

  method UpdateRow(digest: Bytes, row: Row) returns (after: Bytes)
    requires ValuesSized(row)
    ensures after == digest + ([ROW] + ValuesBytes(row))
  {
    after := digest + [ROW];
    ghost var head := after;
    for k := 0 to |row|
      invariant after == head + ValuesBytes(row[..k])
    {
      ValuesAppend(row, k);
      Associates(head, ValuesBytes(row[..k]), Field(row[k].Tag(), row[k].Body()));
      after := UpdateFramed(after, row[k].Tag(), row[k].Body());
    }
    assert row[..|row|] == row;
    Associates(digest, [ROW], ValuesBytes(row));
  }

  method UpdateColumns(columns: seq<Bytes>) returns (after: Bytes)
    requires NamesSized(columns)
    ensures after == Stream(columns, [])
  {
    after := UpdateFramed([], TABLE, JOURNAL_EVENTS);
    assert [] + Field(TABLE, JOURNAL_EVENTS) == Field(TABLE, JOURNAL_EVENTS);
    ghost var head := after;
    for k := 0 to |columns|
      invariant after == head + ColumnsBytes(columns[..k])
    {
      ColumnsAppend(columns, k);
      Associates(head, ColumnsBytes(columns[..k]), Field(COLUMN, columns[k]));
      after := UpdateFramed(after, COLUMN, columns[k]);
    }
    assert columns[..|columns|] == columns;
    assert ColumnsBytes(columns) + [] == ColumnsBytes(columns);
  }

  // ----- fingerprints -----

  const JOURNAL_CHECKPOINT_WINDOW: nat := 256

  datatype Checkpoint = Checkpoint(offset: int, rows: nat, sha256: Bytes)

  datatype Fingerprint = Fingerprint(columns: seq<Bytes>, rows: nat, maxOffset: int, sha256: Bytes, checkpoints: seq<Checkpoint>)

  /** The position of a column, or the number of columns. */
  function IndexOf(columns: seq<Bytes>, name: Bytes): (i: nat)
    ensures i <= |columns|
  {
    if columns == [] || columns[0] == name then 0 else 1 + IndexOf(columns[1..], name)
  }

  /** Rows of the journal table: sized, with an integer offset each. */
  ghost predicate WellTyped(columns: seq<Bytes>, rows: seq<Row>) {
    && NamesSized(columns) && RowsSized(rows)
    && forall i :: 0 <= i < |rows| ==> |rows[i]| == |columns| && HasOffset(columns, rows[i])
  }

  ghost predicate HasOffset(columns: seq<Bytes>, row: Row) {
    var at := IndexOf(columns, JOURNAL_OFFSET);
    at < |row| ==> row[at].Integer?
  }

  function OffsetOf(columns: seq<Bytes>, row: Row): int {
    var at := IndexOf(columns, JOURNAL_OFFSET);
    if at < |row| && row[at].Integer? then row[at].i else 0
  }

  ghost function CheckpointAt(columns: seq<Bytes>, rows: seq<Row>, n: nat, sha256: Bytes -> Bytes): Checkpoint
    requires WellTyped(columns, rows) && 1 <= n <= |rows|
  {
    Checkpoint(OffsetOf(columns, rows[n - 1]), n, sha256(Stream(columns, rows[..n])))
  }

  /** The last checkpoints, as many as the window holds. */
  function Latest(all: seq<Checkpoint>): seq<Checkpoint> {
    if |all| <= JOURNAL_CHECKPOINT_WINDOW then all else all[|all| - JOURNAL_CHECKPOINT_WINDOW..]
  }

  /** `all` is the checkpoints of the first rows, one after each. */
  ghost predicate Checkpoints(all: seq<Checkpoint>, columns: seq<Bytes>, rows: seq<Row>, sha256: Bytes -> Bytes)
    requires WellTyped(columns, rows)
  {
    |all| <= |rows| && forall i :: 0 <= i < |all| ==> all[i] == CheckpointAt(columns, rows, i + 1, sha256)
  }

  /** The evidence of a journal: its columns, its size and end, its digest, and the window of its latest checkpoints. */
  ghost predicate Describes(f: Fingerprint, columns: seq<Bytes>, rows: seq<Row>, sha256: Bytes -> Bytes,
                            all: seq<Checkpoint>)
    requires WellTyped(columns, rows) && rows != []
  {
    && f.columns == columns && f.rows == |rows| && f.maxOffset == OffsetOf(columns, rows[|rows| - 1])
    && f.sha256 == sha256(Stream(columns, rows))
    && |all| == |rows| && Checkpoints(all, columns, rows, sha256) && f.checkpoints == Latest(all)
  }

  /** A bounded queue holds the latest of what was put in it. */
  method Push(queue: seq<Checkpoint>, c: Checkpoint, ghost all: seq<Checkpoint>) returns (after: seq<Checkpoint>)
    requires queue == Latest(all)
    ensures after == Latest(all + [c])
  {
    after := queue + [c];
    if |after| > JOURNAL_CHECKPOINT_WINDOW {
      after := after[1..];
    }
  }

  datatype EvidenceError = OffsetColumnAbsent | HistoryEmpty

  /** Takes one more row into the digest and gives the checkpoint after it. */
  method TakeRow(columns: seq<Bytes>, rows: seq<Row>, k: nat, digest: Bytes, sha256: Bytes -> Bytes)
    returns (after: Bytes, c: Checkpoint)
    requires WellTyped(columns, rows) && k < |rows| && digest == Stream(columns, rows[..k])
    ensures after == Stream(columns, rows[..k + 1]) && c == CheckpointAt(columns, rows, k + 1, sha256)
  {
    StreamAppend(columns, rows, k);
    after := UpdateRow(digest, rows[k]);
    c := Checkpoint(OffsetOf(columns, rows[k]), k + 1, sha256(after));
  }

  lemma CheckpointsNext(all: seq<Checkpoint>, columns: seq<Bytes>, rows: seq<Row>, sha256: Bytes -> Bytes,
                        c: Checkpoint)
    requires WellTyped(columns, rows) && Checkpoints(all, columns, rows, sha256) && |all| < |rows|
    requires c == CheckpointAt(columns, rows, |all| + 1, sha256)
    ensures Checkpoints(all + [c], columns, rows, sha256)
  {
  }

  /** The loop over the rows. */
  method ScanRows(columns: seq<Bytes>, rows: seq<Row>, sha256: Bytes -> Bytes)
    returns (digest: Bytes, checkpoints: seq<Checkpoint>, maxOffset: int, ghost all: seq<Checkpoint>)
    requires WellTyped(columns, rows)
    ensures digest == Stream(columns, rows[..|rows|]) && |all| == |rows| && Checkpoints(all, columns, rows, sha256)
    ensures checkpoints == Latest(all) && maxOffset == if rows == [] then 0 else all[|rows| - 1].offset
  {
    digest := UpdateColumns(columns);
    checkpoints, maxOffset, all := [], 0, [];
    for k := 0 to |rows|
      invariant digest == Stream(columns, rows[..k])
      invariant |all| == k && Checkpoints(all, columns, rows, sha256)
      invariant checkpoints == Latest(all)
      invariant maxOffset == if k == 0 then 0 else all[k - 1].offset
    {
      var c;
      digest, c := TakeRow(columns, rows, k, digest, sha256);
      CheckpointsNext(all, columns, rows, sha256, c);
      checkpoints := Push(checkpoints, c, all);
      all := all + [c];
      maxOffset := c.offset;
    }
  }

  /** Fingerprints a journal in one pass, keeping a bounded queue of checkpoints. */
  method JournalHistoryFingerprint(columns: seq<Bytes>, rows: seq<Row>, sha256: Bytes -> Bytes)
    returns (r: Result<Fingerprint, EvidenceError>, ghost all: seq<Checkpoint>)
    requires WellTyped(columns, rows)
    ensures r.Ok? <==> IndexOf(columns, JOURNAL_OFFSET) < |columns| && rows != [] && OffsetOf(columns, rows[|rows| - 1]) > 0
    ensures r.Ok? ==> Describes(r.value, columns, rows, sha256, all)
  {
    all := [];
    if IndexOf(columns, JOURNAL_OFFSET) == |columns| {
      return Err(OffsetColumnAbsent), all;
    }
    var digest, checkpoints, maxOffset;
    digest, checkpoints, maxOffset, all := ScanRows(columns, rows, sha256);
    assert rows[..|rows|] == rows;
    if !(|rows| > 0 && maxOffset > 0) {
      return Err(HistoryEmpty), all;
    }
    return Ok(Fingerprint(columns, |rows|, maxOffset, sha256(digest), checkpoints)), all;
  }

  // ----- comparing -----

  /** A journal proper: every offset positive, each greater than the one before. */
  ghost predicate IsJournal(columns: seq<Bytes>, rows: seq<Row>) {
    && WellTyped(columns, rows) && rows != []
    && (forall i :: 0 <= i < |rows| ==> OffsetOf(columns, rows[i]) > 0)
    && (forall i, k :: 0 <= i < k < |rows| ==> OffsetOf(columns, rows[i]) < OffsetOf(columns, rows[k]))
  }

  /** The prefix and head-advance checks of a comparison. */
  method CompareJournals(before: Fingerprint, after: Fingerprint) returns (passes: bool)
    ensures passes <==> Passes(before, after)
  {
    var matching: seq<Checkpoint> := [];
    for k := 0 to |after.checkpoints|
      invariant matching == Matching(after.checkpoints[..k], before.maxOffset)
    {
      assert after.checkpoints[..k + 1][..k] == after.checkpoints[..k];
      if after.checkpoints[k].offset == before.maxOffset {
        matching := matching + [after.checkpoints[k]];
      }
    }
    assert after.checkpoints[..|after.checkpoints|] == after.checkpoints;
    if |matching| != 1 {
      return false;
    }
    var prefix := matching[0];
    if !(prefix.rows == before.rows && prefix.sha256 == before.sha256 && after.columns == before.columns) {
      return false;
    }
    return after.maxOffset > before.maxOffset;
  }

  function Matching(checkpoints: seq<Checkpoint>, offset: int): seq<Checkpoint> {
    if checkpoints == [] then []
    else
      var k := |checkpoints| - 1;
      Matching(checkpoints[..k], offset) + if checkpoints[k].offset == offset then [checkpoints[k]] else []
  }

  predicate Passes(before: Fingerprint, after: Fingerprint) {
    var matching := Matching(after.checkpoints, before.maxOffset);
    && |matching| == 1 && matching[0].rows == before.rows && matching[0].sha256 == before.sha256
    && after.columns == before.columns && after.maxOffset > before.maxOffset
  }

  ghost predicate RisingOffsets(checkpoints: seq<Checkpoint>) {
    forall i, k :: 0 <= i < k < |checkpoints| ==> checkpoints[i].offset < checkpoints[k].offset
  }

  lemma {:induction false} MatchingNone(checkpoints: seq<Checkpoint>, offset: int)
    requires forall i :: 0 <= i < |checkpoints| ==> checkpoints[i].offset != offset
    ensures Matching(checkpoints, offset) == []
  {
    if checkpoints != [] {
      MatchingNone(checkpoints[..|checkpoints| - 1], offset);
    }
  }

  /** With rising offsets, a checkpoint is the only match for its own offset. */
  lemma {:induction false} MatchingOne(checkpoints: seq<Checkpoint>, i: nat)
    requires RisingOffsets(checkpoints) && i < |checkpoints|
    ensures Matching(checkpoints, checkpoints[i].offset) == [checkpoints[i]]
  {
    var k := |checkpoints| - 1;
    if i < k {
      MatchingOne(checkpoints[..k], i);
    } else {
      MatchingNone(checkpoints[..k], checkpoints[i].offset);
    }
  }

  lemma {:induction false} MatchingIn(checkpoints: seq<Checkpoint>, offset: int) returns (i: nat)
    requires Matching(checkpoints, offset) != []
    ensures i < |checkpoints| && checkpoints[i].offset == offset
  {
    var k := |checkpoints| - 1;
    if checkpoints[k].offset == offset {
      i := k;
    } else {
      i := MatchingIn(checkpoints[..k], offset);
    }
  }

  /** The checkpoint after row `n` is in the window exactly when at most 255 rows follow it. */
  lemma LatestHas(all: seq<Checkpoint>, n: nat)
    requires 1 <= n <= |all|
    ensures |all| - n < JOURNAL_CHECKPOINT_WINDOW ==>
              var i := n - 1 - (|all| - |Latest(all)|); 0 <= i < |Latest(all)| && Latest(all)[i] == all[n - 1]
  {
  }

  lemma LatestFrom(all: seq<Checkpoint>, i: nat)
    requires i < |Latest(all)|
    ensures var n := |all| - |Latest(all)| + i + 1;
            1 <= n <= |all| && Latest(all)[i] == all[n - 1] && |all| - n < JOURNAL_CHECKPOINT_WINDOW
  {
  }

  lemma LatestRises(all: seq<Checkpoint>)
    requires RisingOffsets(all)
    ensures RisingOffsets(Latest(all))
  {
  }

  lemma CheckpointsRise(all: seq<Checkpoint>, columns: seq<Bytes>, rows: seq<Row>, sha256: Bytes -> Bytes)
    requires IsJournal(columns, rows) && Checkpoints(all, columns, rows, sha256)
    ensures RisingOffsets(all)
  {
  }

  /** The old rows are a prefix of the new ones, under the same columns, and 1 to 255 rows were added. */
  ghost predicate Extends(c: seq<Bytes>, v: seq<Row>, d: seq<Bytes>, w: seq<Row>) {
    c == d && v <= w && 1 <= |w| - |v| < JOURNAL_CHECKPOINT_WINDOW
  }

  ghost predicate Injective(sha256: Bytes -> Bytes) {
    forall x, y :: sha256(x) == sha256(y) ==> x == y
  }

  /** The checkpoint after row `n` is in the window and says `offset` and `sha`. */
  ghost predicate Located(all: seq<Checkpoint>, n: nat, offset: int, sha: Bytes) {
    1 <= n <= |all| && |all| - n < JOURNAL_CHECKPOINT_WINDOW && all[n - 1].offset == offset && all[n - 1].sha256 == sha
  }

  ghost predicate Counted(all: seq<Checkpoint>) {
    forall i :: 0 <= i < |all| ==> all[i].rows == i + 1
  }

  /** Searching the window finds exactly the checkpoint looked for. */
  lemma MatchExact(all: seq<Checkpoint>, n: nat, offset: int, sha: Bytes)
    requires RisingOffsets(all) && Counted(all)
    ensures var found := Matching(Latest(all), offset);
            |found| == 1 && found[0].rows == n && found[0].sha256 == sha <==> Located(all, n, offset, sha)
  {
    LatestRises(all);
    if Matching(Latest(all), offset) != [] {
      var i := MatchingIn(Latest(all), offset);
      MatchingOne(Latest(all), i);
      LatestFrom(all, i);
    }
    if Located(all, n, offset, sha) {
      LatestHas(all, n);
      MatchingOne(Latest(all), n - 1 - (|all| - |Latest(all)|));
    }
  }

  lemma CheckpointsCount(all: seq<Checkpoint>, columns: seq<Bytes>, rows: seq<Row>, sha256: Bytes -> Bytes)
    requires WellTyped(columns, rows) && Checkpoints(all, columns, rows, sha256)
    ensures Counted(all)
  {
  }

  /** What passing comes to, said of the newer journal's own checkpoints. */
  lemma PassesLocated(before: Fingerprint, after: Fingerprint, d: seq<Bytes>, w: seq<Row>, y: seq<Checkpoint>,
                      sha256: Bytes -> Bytes)
    requires IsJournal(d, w) && Describes(after, d, w, sha256, y)
    ensures Passes(before, after) <==>
            Located(y, before.rows, before.maxOffset, before.sha256) && d == before.columns
            && after.maxOffset > before.maxOffset
  {
    CheckpointsRise(y, d, w, sha256);
    CheckpointsCount(y, d, w, sha256);
    MatchExact(y, before.rows, before.maxOffset, before.sha256);
  }

  lemma SamePrefix(c: seq<Bytes>, v: seq<Row>, d: seq<Bytes>, w: seq<Row>, n: nat, sha256: Bytes -> Bytes)
    requires WellTyped(c, v) && WellTyped(d, w) && Injective(sha256) && n <= |w|
    ensures sha256(Stream(d, w[..n])) == sha256(Stream(c, v)) <==> c == d && w[..n] == v
  {
    StreamInjective(d, w[..n], c, v);
  }

  /** The checkpoint of the old end, located in the new journal, is an unchanged prefix. */
  lemma LocatedPrefix(c: seq<Bytes>, v: seq<Row>, d: seq<Bytes>, w: seq<Row>, y: seq<Checkpoint>,
                      sha256: Bytes -> Bytes)
    requires IsJournal(c, v) && IsJournal(d, w) && Injective(sha256) && Checkpoints(y, d, w, sha256) && |y| == |w|
    ensures Located(y, |v|, OffsetOf(c, v[|v| - 1]), sha256(Stream(c, v))) && c == d <==>
            c == d && v <= w && |w| - |v| < JOURNAL_CHECKPOINT_WINDOW
  {
    if |v| <= |w| {
      assert y[|v| - 1] == CheckpointAt(d, w, |v|, sha256);
      SamePrefix(c, v, d, w, |v|, sha256);
      assert v <= w <==> w[..|v|] == v;
    }
  }

  /** The end advances exactly when rows were added. */
  lemma Advances(c: seq<Bytes>, v: seq<Row>, w: seq<Row>)
    requires IsJournal(c, v) && IsJournal(c, w) && v <= w
    ensures OffsetOf(c, v[|v| - 1]) < OffsetOf(c, w[|w| - 1]) <==> |v| < |w|
  {
  }

  /**
   * Comparing two fingerprints passes exactly when the newer journal is the older one with 1 to 255
   * rows appended.
   */
  lemma ComparisonExact(before: Fingerprint, c: seq<Bytes>, v: seq<Row>, x: seq<Checkpoint>,
                        after: Fingerprint, d: seq<Bytes>, w: seq<Row>, y: seq<Checkpoint>, sha256: Bytes -> Bytes)
    requires IsJournal(c, v) && IsJournal(d, w) && Injective(sha256)
    requires Describes(before, c, v, sha256, x) && Describes(after, d, w, sha256, y)
    ensures Passes(before, after) <==> Extends(c, v, d, w)
  {
    PassesLocated(before, after, d, w, y, sha256);
    LocatedPrefix(c, v, d, w, y, sha256);
    if c == d && v <= w {
      Advances(c, v, w);
    }
  }
}
