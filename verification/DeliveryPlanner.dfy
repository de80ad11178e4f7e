/** Splitting an answer into deliverable parts, and planning its deliveries. */
module DeliveryPlanner {
  import opened Prelude
  import opened Utf8

  const MAX_DELIVERY_PARTS: nat := 64
  const NEWLINE: byte := 0x0A

  datatype FailureClass = UnsupportedPayload | PayloadTooLarge | BindingRevoked | ChannelAccountDisabled | ProfileUnavailable

  // ----- where to cut -----

  /** The greatest boundary up to `i`. */
  function LastBoundary(s: Bytes, i: nat): (k: nat)
    requires i <= |s|
    ensures k <= i && IsBoundary(s, k) && forall j :: k < j <= i ==> !IsBoundary(s, j)
  {
    if IsBoundary(s, i) then i else LastBoundary(s, i - 1)
  }

  /** A blank line ends at `k`. */
  predicate EndsBlankLine(s: Bytes, k: nat) {
    2 <= k <= |s| && s[k - 2] == NEWLINE && s[k - 1] == NEWLINE
  }

  predicate EndsLine(s: Bytes, k: nat) {
    1 <= k <= |s| && s[k - 1] == NEWLINE
  }

  /** The end of the last blank line within the first `i` bytes, or 0. */
  function LastBlankLine(s: Bytes, i: nat): (k: nat)
    requires i <= |s|
    ensures k <= i && (k > 0 ==> EndsBlankLine(s, k)) && forall j :: k < j <= i ==> !EndsBlankLine(s, j)
  {
    if i == 0 || EndsBlankLine(s, i) then i else LastBlankLine(s, i - 1)
  }

  function LastLine(s: Bytes, i: nat): (k: nat)
    requires i <= |s|
    ensures k <= i && (k > 0 ==> EndsLine(s, k)) && forall j :: k < j <= i ==> !EndsLine(s, j)
  {
    if i == 0 || EndsLine(s, i) then i else LastLine(s, i - 1)
  }

  /**
   * Where a text longer than `limit` is cut: after its last blank line that fits, else its last
   * line, else its last scalar.
   */
  function Cut(s: Bytes, limit: nat): (c: nat)
    requires limit < |s|
    ensures c <= limit
  {
    var b := LastBoundary(s, limit);
    if LastBlankLine(s, b) > 0 then LastBlankLine(s, b) else if LastLine(s, b) > 0 then LastLine(s, b) else b
  }

  lemma CutBoundary(s: Bytes, limit: nat)
    requires ValidUtf8(s) && 4 <= limit < |s|
    ensures 0 < Cut(s, limit) && IsBoundary(s, Cut(s, limit))
  {
    var near := BoundaryNear(s, limit);
    assert near <= LastBoundary(s, limit);
    if Cut(s, limit) != LastBoundary(s, limit) {
      AfterAscii(s, Cut(s, limit) - 1);
    }
  }

  /** A cut makes progress and leaves two strings. */
  lemma CutSound(s: Bytes, limit: nat)
    requires ValidUtf8(s) && 4 <= limit < |s|
    ensures 0 < Cut(s, limit) <= limit && ValidUtf8(s[..Cut(s, limit)]) && ValidUtf8(s[Cut(s, limit)..])
  {
    CutBoundary(s, limit);
    BoundarySplits(s, Cut(s, limit));
  }

  /**
   * `c` is where a text longer than `limit` should be cut: at the end of the last blank line that ends
   * within the limit; without one, of the last line; without one, at the last boundary.
   */
  ghost predicate Preferred(s: Bytes, limit: nat, c: nat) {
    && 0 < c <= limit < |s|
    && if exists k :: 0 < k <= limit && EndsBlankLine(s, k)
       then EndsBlankLine(s, c) && forall k :: c < k <= limit ==> !EndsBlankLine(s, k)
       else if exists k :: 0 < k <= limit && EndsLine(s, k)
         then EndsLine(s, c) && forall k :: c < k <= limit ==> !EndsLine(s, k)
         else IsBoundary(s, c) && forall k :: c < k <= limit ==> !IsBoundary(s, k)
  }

  /** Every line that ends within the limit ends at or before the last boundary. */
  lemma LinesBeforeBoundary(s: Bytes, limit: nat, k: nat)
    requires ValidUtf8(s) && 0 < k <= limit < |s| && EndsLine(s, k)
    ensures k <= LastBoundary(s, limit)
  {
    AfterAscii(s, k - 1);
  }

  /** The cut is the preferred one. */
  lemma CutPreferred(s: Bytes, limit: nat)
    requires ValidUtf8(s) && 4 <= limit < |s|
    ensures Preferred(s, limit, Cut(s, limit))
  {
    CutSound(s, limit);
    var b := LastBoundary(s, limit);
    forall k | 0 < k <= limit && EndsLine(s, k) ensures k <= b {
      LinesBeforeBoundary(s, limit, k);
    }
    assert forall k :: EndsBlankLine(s, k) ==> EndsLine(s, k);
  }

  /** The parts of a text, each cut as late as the preference allows. */
  function Parts(s: Bytes, limit: nat): seq<Bytes>
    requires ValidUtf8(s) && limit >= 4
    decreases |s|
  {
    if |s| <= limit then [s]
    else
      CutSound(s, limit);
      [s[..Cut(s, limit)]] + Parts(s[Cut(s, limit)..], limit)
  }

  function Concat(parts: seq<Bytes>): Bytes {
    if parts == [] then [] else Concat(parts[..|parts| - 1]) + parts[|parts| - 1]
  }

  lemma {:induction false} ConcatAppend(x: seq<Bytes>, y: seq<Bytes>)
    ensures Concat(x + y) == Concat(x) + Concat(y)
  {
    if y == [] {
      assert x + y == x;
    } else {
      var k := |y| - 1;
      assert (x + y)[..|x + y| - 1] == x + y[..k];
      ConcatAppend(x, y[..k]);
    }
  }

  lemma ConcatOne(p: Bytes)
    ensures Concat([p]) == p
  {
  }

  /** No byte is lost or added. */
  lemma {:induction false} PartsConcat(s: Bytes, limit: nat)
    requires ValidUtf8(s) && limit >= 4
    ensures Concat(Parts(s, limit)) == s
    decreases |s|
  {
    if |s| <= limit {
      ConcatOne(s);
    } else {
      CutSound(s, limit);
      PartsConcat(s[Cut(s, limit)..], limit);
      ConcatFirst(s, Cut(s, limit), Parts(s[Cut(s, limit)..], limit));
    }
  }

  lemma ConcatFirst(s: Bytes, c: nat, rest: seq<Bytes>)
    requires c <= |s| && Concat(rest) == s[c..]
    ensures Concat([s[..c]] + rest) == s
  {
    ConcatAppend([s[..c]], rest);
    ConcatOne(s[..c]);
    Rejoin(s, c, []);
  }

  /** After `done`, `part` is what comes before the preferred cut of what is left or, if it is the last, all of it. */
  ghost predicate CutAfter(s: Bytes, limit: nat, done: Bytes, part: Bytes, last: bool) {
    && done <= s
    && var rest := s[|done|..];
    if last then |rest| <= limit && part == rest else Preferred(rest, limit, |part|) && part == rest[..|part|]
  }

  lemma CutAfterMore(s: Bytes, c: nat, limit: nat, done: Bytes, part: Bytes, last: bool)
    requires c <= |s| && CutAfter(s[c..], limit, done, part, last)
    ensures CutAfter(s, limit, s[..c] + done, part, last)
  {
    assert s[c..][|done|..] == s[c + |done|..];
    assert s[..c] + done == s[..c + |done|];
  }

  lemma FirstPreferred(s: Bytes, limit: nat)
    requires ValidUtf8(s) && limit >= 4
    ensures var parts := Parts(s, limit);
            parts != [] && CutAfter(s, limit, [], parts[0], |parts| == 1)
  {
    assert s[0..] == s;
    if |s| > limit {
      CutSound(s, limit);
      CutPreferred(s, limit);
      PartsSome(s[Cut(s, limit)..], limit);
    }
  }

  lemma ConcatOnto(p: Bytes, later: seq<Bytes>, i: nat)
    requires i <= |later|
    ensures Concat(([p] + later)[..i + 1]) == p + Concat(later[..i])
  {
    assert ([p] + later)[..i + 1] == [p] + later[..i];
    ConcatAppend([p], later[..i]);
    ConcatOne(p);
  }

  /** The parts of a text that is cut. */
  lemma PartsCut(s: Bytes, limit: nat)
    requires ValidUtf8(s) && limit >= 4 && |s| > limit
    ensures var c := Cut(s, limit);
            && 0 < c <= |s| && ValidUtf8(s[c..]) && Parts(s, limit) == [s[..c]] + Parts(s[c..], limit)
  {
    CutSound(s, limit);
  }

  /** Part `i` of a text. */
  ghost predicate PartCut(s: Bytes, limit: nat, parts: seq<Bytes>, i: nat)
    requires i < |parts|
  {
    CutAfter(s, limit, Concat(parts[..i]), parts[i], i == |parts| - 1)
  }

  lemma PartCutOn(s: Bytes, limit: nat, c: nat, later: seq<Bytes>, i: nat)
    requires c <= |s| && i < |later| && PartCut(s[c..], limit, later, i)
    ensures PartCut(s, limit, [s[..c]] + later, i + 1)
  {
    ConcatOnto(s[..c], later, i);
    CutAfterMore(s, c, limit, Concat(later[..i]), later[i], i == |later| - 1);
  }

  lemma FirstPartCut(s: Bytes, limit: nat)
    requires ValidUtf8(s) && limit >= 4
    ensures Parts(s, limit) != [] && PartCut(s, limit, Parts(s, limit), 0)
  {
    FirstPreferred(s, limit);
    assert Parts(s, limit)[..0] == [];
  }

  lemma SeveralParts(s: Bytes, limit: nat)
    requires ValidUtf8(s) && limit >= 4 && |Parts(s, limit)| > 1
    ensures |s| > limit
  {
  }

  /** Every part but the last is what comes before the preferred cut of what the earlier ones left. */
  lemma {:induction false} PartsPreferred(s: Bytes, limit: nat, parts: seq<Bytes>, i: nat)
    requires ValidUtf8(s) && limit >= 4 && parts == Parts(s, limit) && i < |parts|
    ensures PartCut(s, limit, parts, i)
    decreases |s|
  {
    if i == 0 {
      FirstPartCut(s, limit);
    } else {
      SeveralParts(s, limit);
      PartsCut(s, limit);
      var c, later := Cut(s, limit), parts[1..];
      assert parts == [s[..c]] + later;
      PartsPreferred(s[c..], limit, later, i - 1);
      PartCutOn(s, limit, c, later, i - 1);
    }
  }

  lemma PartsSome(s: Bytes, limit: nat)
    requires ValidUtf8(s) && limit >= 4
    ensures Parts(s, limit) != []
  {
  }

  predicate Deliverable(p: Bytes, limit: nat) {
    p != [] && |p| <= limit && ValidUtf8(p)
  }

  ghost predicate AllDeliverable(parts: seq<Bytes>, limit: nat) {
    forall i :: 0 <= i < |parts| ==> Deliverable(parts[i], limit)
  }

  /** Every part is a non-empty string within the limit. */
  lemma {:induction false} PartsDeliverable(s: Bytes, limit: nat)
    requires ValidUtf8(s) && limit >= 4 && s != []
    ensures Parts(s, limit) != [] && AllDeliverable(Parts(s, limit), limit)
    decreases |s|
  {
    if |s| > limit {
      CutSound(s, limit);
      PartsDeliverable(s[Cut(s, limit)..], limit);
      DeliverableFirst(s[..Cut(s, limit)], Parts(s[Cut(s, limit)..], limit), limit);
    }
  }

  lemma DeliverableFirst(p: Bytes, rest: seq<Bytes>, limit: nat)
    requires Deliverable(p, limit) && AllDeliverable(rest, limit)
    ensures AllDeliverable([p] + rest, limit)
  {
  }

  /** A text splits exactly when it is not empty and its parts are within the budget. */
  function Split(text: Bytes, limit: nat, maxParts: nat): Result<seq<Bytes>, FailureClass>
    requires ValidUtf8(text) && limit >= 4
  {
    if text == [] then Err(UnsupportedPayload)
    else if |Parts(text, limit)| <= maxParts then Ok(Parts(text, limit))
    else Err(PayloadTooLarge)
  }

  // ----- the splitter -----

  /** The end of the last blank line of a prefix, if it has one. */
  method FindBlankLine(prefix: Bytes) returns (end: Option<nat>)
    ensures end == if LastBlankLine(prefix, |prefix|) > 0 then Some(LastBlankLine(prefix, |prefix|)) else None
  {
    var k: nat := |prefix|;
    while k >= 2
      invariant k <= |prefix| && LastBlankLine(prefix, |prefix|) == LastBlankLine(prefix, k)
    {
      if prefix[k - 2] == NEWLINE && prefix[k - 1] == NEWLINE {
        return Some(k);
      }
      k := k - 1;
    }
    return None;
  }

  method FindLine(prefix: Bytes) returns (end: Option<nat>)
    ensures end == if LastLine(prefix, |prefix|) > 0 then Some(LastLine(prefix, |prefix|)) else None
  {
    var k: nat := |prefix|;
    while k >= 1
      invariant k <= |prefix| && LastLine(prefix, |prefix|) == LastLine(prefix, k)
    {
      if prefix[k - 1] == NEWLINE {
        return Some(k);
      }
      k := k - 1;
    }
    return None;
  }

  /** Looking at a prefix alone finds the same line ends. */
  lemma {:induction false} PrefixLines(s: Bytes, b: nat, k: nat)
    requires k <= b <= |s|
    ensures LastBlankLine(s[..b], k) == LastBlankLine(s, k) && LastLine(s[..b], k) == LastLine(s, k)
  {
    if k > 0 {
      PrefixLines(s, b, k - 1);
      assert EndsBlankLine(s[..b], k) == EndsBlankLine(s, k) && EndsLine(s[..b], k) == EndsLine(s, k);
    }
  }

  /** The last boundary within the limit, found by stepping back. */
  method FindBoundary(text: Bytes, start: nat, limit: nat) returns (boundary: nat)
    requires start <= |text| && limit < |text| - start
    ensures start <= boundary <= start + limit && boundary - start == LastBoundary(text[start..], limit)
  {
    ghost var rest := text[start..];
    boundary := start + limit;
    while boundary > start && !IsBoundary(text, boundary)
      invariant start <= boundary <= start + limit && LastBoundary(rest, limit) == LastBoundary(rest, boundary - start)
    {
      boundary := boundary - 1;
    }
  }

  lemma CutByPrefix(rest: Bytes, limit: nat, prefix: Bytes)
    requires limit < |rest| && prefix == rest[..LastBoundary(rest, limit)]
    ensures var blank, line := LastBlankLine(prefix, |prefix|), LastLine(prefix, |prefix|);
            Cut(rest, limit) == if blank > 0 then blank else if line > 0 then line else |prefix|
  {
    PrefixLines(rest, |prefix|, |prefix|);
  }

  /** Where the rest of a text is cut. */
  method FindCut(text: Bytes, start: nat, limit: nat) returns (split: nat)
    requires start <= |text| && 4 <= limit < |text| - start && ValidUtf8(text[start..])
    ensures split == start + Cut(text[start..], limit)
  {
    ghost var rest := text[start..];
    var boundary := FindBoundary(text, start, limit);
    CutBoundary(rest, limit);
    if boundary == start {
      assert false;
    }
    var prefix := text[start..boundary];
    assert prefix == rest[..boundary - start];
    CutByPrefix(rest, limit, prefix);
    var blank := FindBlankLine(prefix);
    if blank.Some? {
      return start + blank.value;
    }
    var line := FindLine(prefix);
    return if line.Some? then start + line.value else boundary;
  }

  /** Splitting at the cut gives the next part and leaves the later ones. */
  lemma NextPart(text: Bytes, start: nat, limit: nat, split: nat)
    requires start <= |text| && 4 <= limit < |text| - start && ValidUtf8(text[start..])
    requires split == start + Cut(text[start..], limit)
    ensures start < split < |text| && ValidUtf8(text[split..])
    ensures Parts(text[start..], limit) == [text[start..split]] + Parts(text[split..], limit)
  {
    var rest, c := text[start..], Cut(text[start..], limit);
    CutSound(rest, limit);
    assert text[start..split] == rest[..c] && text[split..] == rest[c..];
  }

  /** The checks before the return. */
  method Guard(parts: seq<Bytes>, text: Bytes, maxParts: nat) returns (rejects: bool)
    ensures rejects <==> parts == [] || |parts| > maxParts || |parts| > 64 || Concat(parts) != text || exists i :: 0 <= i < |parts| && parts[i] == []
  {
    if parts == [] || |parts| > maxParts || |parts| > 64 || Concat(parts) != text {
      return true;
    }
    for k := 0 to |parts|
      invariant forall i :: 0 <= i < k ==> parts[i] != []
    {
      if parts[k] == [] {
        return true;
      }
    }
    return false;
  }

  lemma PartsAt(parts: seq<Bytes>, text: Bytes, start: nat, limit: nat, split: nat)
    requires start <= |text| && ValidUtf8(text) && limit >= 4 && ValidUtf8(text[start..])
    requires Parts(text, limit) == parts + Parts(text[start..], limit)
    requires split <= |text| && ValidUtf8(text[split..]) && start <= split
    requires Parts(text[start..], limit) == [text[start..split]] + Parts(text[split..], limit)
    ensures Parts(text, limit) == (parts + [text[start..split]]) + Parts(text[split..], limit)
  {
  }

  /**
   * Splits a text. It succeeds exactly when its parts are within the budget, and then returns them;
   * the guard before the return never rejects.
   */
  method SplitText(text: Bytes, limit: nat, maxParts: nat) returns (r: Result<seq<Bytes>, FailureClass>)
    requires ValidUtf8(text) && limit >= 4 && 1 <= maxParts <= MAX_DELIVERY_PARTS
    ensures r == Split(text, limit, maxParts)
  {
    if text == [] {
      return Err(UnsupportedPayload);
    }
    var parts, start := [], 0;
    assert text[0..] == text;
    while |text| - start > limit
      invariant start < |text| && ValidUtf8(text[start..]) && |parts| < maxParts
      invariant Parts(text, limit) == parts + Parts(text[start..], limit)
      decreases |text| - start
    {
      var split := FindCut(text, start, limit);
      NextPart(text, start, limit, split);
      PartsAt(parts, text, start, limit, split);
      parts := parts + [text[start..split]];
      if |parts| >= maxParts {
        PartsDeliverable(text[split..], limit);
        return Err(PayloadTooLarge);
      }
      start := split;
    }
    parts := parts + [text[start..]];
    GuardPasses(text, limit, maxParts);
    var rejects := Guard(parts, text, maxParts);
    if rejects {
      assert false;
    }
    return Ok(parts);
  }

  lemma GuardPasses(text: Bytes, limit: nat, maxParts: nat)
    requires ValidUtf8(text) && text != [] && limit >= 4 && |Parts(text, limit)| <= maxParts <= MAX_DELIVERY_PARTS
    ensures var parts := Parts(text, limit); parts != [] && Concat(parts) == text && forall i :: 0 <= i < |parts| ==> parts[i] != []
  {
    PartsConcat(text, limit);
    PartsDeliverable(text, limit);
    assert forall i :: 0 <= i < |Parts(text, limit)| ==> Deliverable(Parts(text, limit)[i], limit);
  }

  // ----- rendering -----

  datatype PlannerError = InvalidTime | EmptyPayload

  const BLANK_LINE: Bytes := [NEWLINE, NEWLINE]

  /** The blocks of a message, a blank line between each two. */
  function Joined(blocks: seq<Bytes>): Bytes {
    if blocks == [] then []
    else if |blocks| == 1 then blocks[0]
    else Joined(blocks[..|blocks| - 1]) + BLANK_LINE + blocks[|blocks| - 1]
  }

  /** Where block `i` begins. */
  function Offset(blocks: seq<Bytes>, i: nat): nat
    requires i <= |blocks|
  {
    if i == 0 then 0 else Offset(blocks, i - 1) + |blocks[i - 1]| + 2
  }

  lemma {:induction false} OffsetPrefix(blocks: seq<Bytes>, n: nat, i: nat)
    requires i <= n <= |blocks|
    ensures Offset(blocks[..n], i) == Offset(blocks, i)
  {
    if i > 0 {
      OffsetPrefix(blocks, n, i - 1);
    }
  }

  lemma {:induction false} JoinedLength(blocks: seq<Bytes>)
    requires blocks != []
    ensures |Joined(blocks)| + 2 == Offset(blocks, |blocks|)
  {
    if |blocks| > 1 {
      var k := |blocks| - 1;
      JoinedLength(blocks[..k]);
      OffsetPrefix(blocks, k, k);
    }
  }

  /** Block `i` of a text stands at `at`, after two newlines unless it is the first. */
  predicate Stands(text: Bytes, block: Bytes, i: nat, at: nat) {
    && at + |block| <= |text| && text[at..at + |block|] == block
    && (i > 0 ==> 2 <= at && text[at - 2] == text[at - 1] == 0x0A)
  }

  lemma LastBlock(front: Bytes, block: Bytes, i: nat)
    ensures var text := front + BLANK_LINE + block;
            front <= text && Stands(text, block, i, |front| + 2)
  {
    var text, at := front + BLANK_LINE + block, |front| + 2;
    assert |text| == at + |block| && text[at..] == block;
    assert text[at..at + |block|] == text[at..];
  }

  lemma StandsLonger(text: Bytes, more: Bytes, block: Bytes, i: nat, at: nat)
    requires Stands(text, block, i, at) && text <= more
    ensures Stands(more, block, i, at)
  {
    assert more[..|text|] == text;
    assert more[at..at + |block|] == text[at..at + |block|];
  }

  lemma LastStands(blocks: seq<Bytes>)
    requires blocks != []
    ensures var k := |blocks| - 1; Stands(Joined(blocks), blocks[k], k, Offset(blocks, k))
  {
    var k := |blocks| - 1;
    if k > 0 {
      var front := Joined(blocks[..k]);
      LastBlock(front, blocks[k], k);
      JoinedLength(blocks[..k]);
      OffsetPrefix(blocks, k, k);
      assert Offset(blocks, k) == |front| + 2;
    } else {
      assert Joined(blocks) == blocks[0] == Joined(blocks)[..|blocks[0]|];
    }
  }

  lemma JoinedGrows(blocks: seq<Bytes>)
    requires |blocks| > 1
    ensures Joined(blocks[..|blocks| - 1]) <= Joined(blocks)
  {
    LastBlock(Joined(blocks[..|blocks| - 1]), blocks[|blocks| - 1], 1);
  }

  /** A rendering holds every block, in order and whole, two newlines between each two, and nothing else. */
  lemma {:induction false} JoinedHolds(blocks: seq<Bytes>, i: nat)
    requires i < |blocks|
    ensures |Joined(blocks)| + 2 == Offset(blocks, |blocks|) && Stands(Joined(blocks), blocks[i], i, Offset(blocks, i))
    decreases |blocks|
  {
    var k := |blocks| - 1;
    JoinedLength(blocks);
    if i == k {
      LastStands(blocks);
    } else {
      var front := blocks[..k];
      JoinedHolds(front, i);
      OffsetPrefix(blocks, k, i);
      JoinedGrows(blocks);
      StandsLonger(Joined(front), Joined(blocks), blocks[i], i, Offset(blocks, i));
    }
  }

  method RenderAssistant(blocks: seq<Bytes>) returns (r: Result<Bytes, PlannerError>)
    ensures r == if Joined(blocks) == [] then Err(EmptyPayload) else Ok(Joined(blocks))
  {
    var rendered := [];
    for index := 0 to |blocks|
      invariant rendered == Joined(blocks[..index])
    {
      assert blocks[..index + 1][..index] == blocks[..index];
      if index != 0 {
        rendered := rendered + BLANK_LINE;
      }
      rendered := rendered + blocks[index];
    }
    assert blocks[..|blocks|] == blocks;
    return if rendered == [] then Err(EmptyPayload) else Ok(rendered);
  }

  lemma {:induction false} JoinedValid(blocks: seq<Bytes>)
    requires forall i :: 0 <= i < |blocks| ==> ValidUtf8(blocks[i])
    ensures ValidUtf8(Joined(blocks))
  {
    if |blocks| > 1 {
      var k := |blocks| - 1;
      JoinedValid(blocks[..k]);
      assert ValidUtf8(BLANK_LINE) by {
        assert ScalarLength(BLANK_LINE) == 1 && BLANK_LINE[1..] == [NEWLINE];
        assert ScalarLength([NEWLINE]) == 1 && [NEWLINE][1..] == [];
      }
      ConcatValid(Joined(blocks[..k]), BLANK_LINE);
      ConcatValid(Joined(blocks[..k]) + BLANK_LINE, blocks[k]);
    }
  }

  // ----- planning -----

  const MIN_DELIVERY_TEXT_UTF8_BYTES: nat := 64
  const MAX_DELIVERY_TEXT_UTF8_BYTES: nat := 196_606
  const DELIVERY_DEADLINE_MICROS: nat := 3_600_000_000

  /** The last microsecond of the year 9999, counted from 1970. */
  const LAST_MICRO: int := 253_402_300_799_999_999

  datatype Limits = Limits(maxText: nat, maxParts: nat)

  type Profile = p: Limits |
      MIN_DELIVERY_TEXT_UTF8_BYTES <= p.maxText <= MAX_DELIVERY_TEXT_UTF8_BYTES && 1 <= p.maxParts <= MAX_DELIVERY_PARTS
    witness Limits(MIN_DELIVERY_TEXT_UTF8_BYTES, 1)

  datatype Route = Route(craxii: nat, binding: nat, account: nat, provider: nat, conversation: string, thread: Option<string>,
                         bindingActive: bool, accountActive: bool)

  datatype Source = AssistantMessage(message: nat, work: nat) | ControlAcknowledgement(inbound: nat, applied: bool)

  datatype DeliveryState = Queued | PermanentFailure

  datatype OutboundDelivery = OutboundDelivery(
    route: Route, source: Source, payload: Bytes, payloadSha256: Bytes, ordinal: nat, partCount: nat,
    state: DeliveryState,
    attempts: nat, deadline: int, failure: Option<FailureClass>, createdAt: int, updatedAt: int)

  function RouteFailure(route: Route): Option<FailureClass> {
    if !route.bindingActive then Some(BindingRevoked)
    else if !route.accountActive then Some(ChannelAccountDisabled)
    else None
  }

  /** The parts of a rendered text, or the whole of it and why it cannot be split. */
  function Planned(text: Bytes, profile: Option<Profile>): (seq<Bytes>, Option<FailureClass>)
    requires ValidUtf8(text)
  {
    match profile
    case None => ([text], Some(ProfileUnavailable))
    case Some(p) =>
      match Split(text, p.maxText, p.maxParts)
      case Ok(parts) => (parts, None)
      case Err(failure) => ([text], Some(failure))
  }

  /** One delivery per part. */
  function Deliveries(source: Source, route: Route, parts: seq<Bytes>, failure: Option<FailureClass>, createdAt: int,
                      sha256: Bytes -> Bytes)
    : seq<OutboundDelivery>
  {
    seq(|parts|, i requires 0 <= i < |parts| =>
      OutboundDelivery(route, source, parts[i], sha256(parts[i]), i + 1, |parts|, if failure.Some? then PermanentFailure else Queued,
                       0, createdAt + DELIVERY_DEADLINE_MICROS, failure, createdAt, createdAt))
  }

  function PlanRendered(source: Source, text: Bytes, route: Route, profiles: map<nat, Profile>, createdAt: int,
                        sha256: Bytes -> Bytes)
    : Result<seq<OutboundDelivery>, PlannerError>
    requires ValidUtf8(text)
  {
    if createdAt + DELIVERY_DEADLINE_MICROS > LAST_MICRO then Err(InvalidTime)
    else
      Ok(Deliveries(source, route, Planned(text, ProfileOf(route, profiles)).0, FailureOf(text, route, profiles),
                    createdAt, sha256))
  }

  /** A failure of the route comes before a failure to split. */
  function FailureOf(text: Bytes, route: Route, profiles: map<nat, Profile>): Option<FailureClass>
    requires ValidUtf8(text)
  {
    if RouteFailure(route).Some? then RouteFailure(route) else Planned(text, ProfileOf(route, profiles)).1
  }

  function ProfileOf(route: Route, profiles: map<nat, Profile>): Option<Profile> {
    if route.provider in profiles then Some(profiles[route.provider]) else None
  }

  datatype Message = Message(id: nat, work: Option<nat>, blocks: seq<Bytes>, committedAt: int)

  function PlanAssistant(message: Message, route: Route, profiles: map<nat, Profile>, sha256: Bytes -> Bytes)
    : Result<seq<OutboundDelivery>, PlannerError>
    requires forall i :: 0 <= i < |message.blocks| ==> ValidUtf8(message.blocks[i])
  {
    JoinedValid(message.blocks);
    if Joined(message.blocks) == [] || message.work.None? then Err(EmptyPayload)
    else PlanRendered(AssistantMessage(message.id, message.work.value), Joined(message.blocks), route, profiles,
                      message.committedAt, sha256)
  }

  function Payloads(plan: seq<OutboundDelivery>): seq<Bytes> {
    seq(|plan|, i requires 0 <= i < |plan| => plan[i].payload)
  }

  /** What a delivery is for: where it goes, what it came from, when, and what speaks against it. */
  datatype Occasion = Occasion(route: Route, source: Source, createdAt: int, failure: Option<FailureClass>)

  /** The delivery of part `i` of `n`: an hour to send it, not yet attempted, and failed from the start exactly with a failure. */
  ghost predicate PartOf(d: OutboundDelivery, i: nat, n: nat, o: Occasion, sha256: Bytes -> Bytes) {
    && d.ordinal == i + 1 && d.partCount == n && d.payload != [] && ValidUtf8(d.payload) && d.payloadSha256 == sha256(d.payload)
    && d.route == o.route && d.source == o.source && d.createdAt == d.updatedAt == o.createdAt
    && d.deadline == o.createdAt + 60 * 60 * 1_000_000 && d.attempts == 0
    && d.failure == o.failure && (d.state == Queued <==> o.failure == None)
  }

  /** The deliveries of one message: numbered from 1, all for the same occasion, and together its text. */
  ghost predicate Consistent(plan: seq<OutboundDelivery>, text: Bytes, o: Occasion, sha256: Bytes -> Bytes) {
    && 1 <= |plan| <= MAX_DELIVERY_PARTS && Concat(Payloads(plan)) == text
    && forall i :: 0 <= i < |plan| ==> PartOf(plan[i], i, |plan|, o, sha256)
  }

  /** A text is divided into its parts where the provider's profile allows as many, and kept whole otherwise. */
  ghost function Divided(text: Bytes, route: Route, profiles: map<nat, Profile>): seq<Bytes>
    requires ValidUtf8(text)
  {
    if route.provider in profiles && |Parts(text, profiles[route.provider].maxText)| <= profiles[route.provider].maxParts
    then Parts(text, profiles[route.provider].maxText) else [text]
  }

  /** What speaks against sending a text: a revoked binding, a disabled account, no profile, or too many parts, in this order. */
  ghost function Against(text: Bytes, route: Route, profiles: map<nat, Profile>): Option<FailureClass>
    requires ValidUtf8(text)
  {
    if !route.bindingActive then Some(BindingRevoked)
    else if !route.accountActive then Some(ChannelAccountDisabled)
    else if route.provider !in profiles then Some(ProfileUnavailable)
    else if |Parts(text, profiles[route.provider].maxText)| > profiles[route.provider].maxParts then Some(PayloadTooLarge)
    else None
  }

  lemma PlannedSound(text: Bytes, profile: Option<Profile>)
    requires ValidUtf8(text) && text != []
    ensures var (parts, failure) := Planned(text, profile);
            && 1 <= |parts| <= MAX_DELIVERY_PARTS && Concat(parts) == text
            && (forall i :: 0 <= i < |parts| ==> parts[i] != [] && ValidUtf8(parts[i]))
            && (failure.None? <==> profile.Some? && |Parts(text, profile.value.maxText)| <= profile.value.maxParts)
            && (failure.None? ==> AllDeliverable(parts, profile.value.maxText))
  {
    ConcatOne(text);
    if profile.Some? {
      PartsConcat(text, profile.value.maxText);
      PartsDeliverable(text, profile.value.maxText);
    }
  }

  lemma DeliveriesConsistent(source: Source, route: Route, parts: seq<Bytes>, failure: Option<FailureClass>,
                             createdAt: int, sha256: Bytes -> Bytes)
    requires 1 <= |parts| <= MAX_DELIVERY_PARTS && forall i :: 0 <= i < |parts| ==> parts[i] != [] && ValidUtf8(parts[i])
    ensures Consistent(Deliveries(source, route, parts, failure, createdAt, sha256), Concat(parts),
                       Occasion(route, source, createdAt, failure), sha256)
    ensures Payloads(Deliveries(source, route, parts, failure, createdAt, sha256)) == parts
  {
    var plan, o := Deliveries(source, route, parts, failure, createdAt, sha256), Occasion(route, source, createdAt, failure);
    assert Payloads(plan) == parts;
    forall i | 0 <= i < |plan| ensures PartOf(plan[i], i, |plan|, o, sha256) {
      assert plan[i].payload == parts[i];
    }
  }

  /**
   * Planning a text fails exactly on a deadline beyond the calendar. Otherwise the plan carries the
   * text exactly, and it is queued exactly when the message can be sent.
   */
  lemma PlanFaithful(source: Source, text: Bytes, route: Route, profiles: map<nat, Profile>, createdAt: int,
                     sha256: Bytes -> Bytes)
    requires ValidUtf8(text) && text != []
    ensures var plan := PlanRendered(source, text, route, profiles, createdAt, sha256);
            if createdAt + DELIVERY_DEADLINE_MICROS > LAST_MICRO then plan == Err(InvalidTime)
            else
              && plan.Ok?
              && Consistent(plan.value, text, Occasion(route, source, createdAt, Against(text, route, profiles)), sha256)
              && Payloads(plan.value) == Divided(text, route, profiles)
  {
    PlannedSound(text, ProfileOf(route, profiles));
    PlannedExact(text, route, profiles);
    var parts := Planned(text, ProfileOf(route, profiles)).0;
    DeliveriesConsistent(source, route, parts, FailureOf(text, route, profiles), createdAt, sha256);
  }

  /** The parts planned and the failure planned are what the text and its route call for. */
  lemma PlannedExact(text: Bytes, route: Route, profiles: map<nat, Profile>)
    requires ValidUtf8(text) && text != []
    ensures FailureOf(text, route, profiles) == Against(text, route, profiles)
    ensures Planned(text, ProfileOf(route, profiles)).0 == Divided(text, route, profiles)
  {
  }

  /** Planning an assistant message delivers its blocks joined by blank lines, or refuses an empty one. */
  lemma AssistantPlanFaithful(message: Message, route: Route, profiles: map<nat, Profile>, sha256: Bytes -> Bytes)
    requires forall i :: 0 <= i < |message.blocks| ==> ValidUtf8(message.blocks[i])
    ensures var text, plan := Joined(message.blocks), PlanAssistant(message, route, profiles, sha256);
            && ValidUtf8(text)
            && (plan == Err(EmptyPayload) <==> text == [] || message.work.None?)
            && (plan == Err(InvalidTime) <==> text != [] && message.work.Some? && message.committedAt + DELIVERY_DEADLINE_MICROS > LAST_MICRO)
            && (plan.Ok? ==>
                  && message.work.Some?
                  && var source := AssistantMessage(message.id, message.work.value);
                  Consistent(plan.value, text, Occasion(route, source, message.committedAt, Against(text, route, profiles)), sha256))
  {
    JoinedValid(message.blocks);
    if Joined(message.blocks) != [] && message.work.Some? {
      PlanFaithful(AssistantMessage(message.id, message.work.value), Joined(message.blocks), route, profiles,
                   message.committedAt, sha256);
    }
  }
}
