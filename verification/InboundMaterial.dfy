/** The bytes an inbound event is known by, and that they identify it. */
module InboundMaterial {
  import opened Prelude
  import opened Framing

  // ----- message content -----

  /** "craxii.content" */
  const CONTENT_MAGIC: Bytes :=
    [0x63, 0x72, 0x61, 0x78, 0x69, 0x69, 0x2E, 0x63, 0x6F, 0x6E, 0x74, 0x65, 0x6E, 0x74]
  const CONTENT_VERSION: byte := 1
  const TEXT_BLOCK_TAG: byte := 1
  const MAX_CONTENT_TEXT_BYTES: nat := 65_536

  function TotalText(blocks: seq<Bytes>): nat {
    if blocks == [] then 0 else |blocks[0]| + TotalText(blocks[1..])
  }

  /** Content as validated: some blocks, none empty, within the combined limit. */
  ghost predicate ValidContent(blocks: seq<Bytes>) {
    blocks != [] && (forall i :: 0 <= i < |blocks| ==> blocks[i] != []) && TotalText(blocks) <= MAX_CONTENT_TEXT_BYTES
  }

  function BlockBytes(text: Bytes): Bytes
    requires |text| < U64
  {
    [TEXT_BLOCK_TAG] + Framed(text)
  }

  ghost predicate AllSized(blocks: seq<Bytes>) {
    forall i :: 0 <= i < |blocks| ==> |blocks[i]| < U64
  }

  ghost function BlocksBytes(blocks: seq<Bytes>): Bytes
    requires AllSized(blocks)
  {
    if blocks == [] then [] else BlockBytes(blocks[0]) + BlocksBytes(blocks[1..])
  }

  ghost function Canonical(blocks: seq<Bytes>): Bytes
    requires |blocks| < U32 && AllSized(blocks)
  {
    Powers();
    CONTENT_MAGIC + [CONTENT_VERSION] + BigEndian(|blocks|, 4) + BlocksBytes(blocks)
  }

  lemma {:induction false} ContentSized(blocks: seq<Bytes>, i: nat)
    requires (forall k :: 0 <= k < |blocks| ==> blocks[k] != []) && i < |blocks|
    ensures |blocks[i]| <= TotalText(blocks) && |blocks| <= TotalText(blocks)
  {
    if |blocks| > 1 {
      ContentSized(blocks[1..], if i > 0 then i - 1 else 0);
    }
  }

  lemma ValidSized(blocks: seq<Bytes>)
    requires ValidContent(blocks)
    ensures |blocks| < U32 && AllSized(blocks) && |Canonical(blocks)| < U64
  {
    ContentSized(blocks, 0);
    assert AllSized(blocks) by {
      SizedBlocks(blocks);
    }
    BlocksLength(blocks);
  }

  lemma {:induction false} BlocksLength(blocks: seq<Bytes>)
    requires AllSized(blocks)
    ensures |BlocksBytes(blocks)| == 9 * |blocks| + TotalText(blocks)
  {
    if blocks != [] {
      Powers();
      BlocksLength(blocks[1..]);
    }
  }

  lemma SizedBlocks(blocks: seq<Bytes>)
    requires ValidContent(blocks)
    ensures AllSized(blocks)
  {
    forall i | 0 <= i < |blocks|
      ensures |blocks[i]| < U64
    {
      ContentSized(blocks, i);
    }
  }

  lemma BlocksAppend(blocks: seq<Bytes>, k: nat)
    requires k < |blocks| && AllSized(blocks)
    ensures BlocksBytes(blocks[..k + 1]) == BlocksBytes(blocks[..k]) + BlockBytes(blocks[k])
    decreases k
  {
    if k == 0 {
      assert blocks[..1][1..] == [];
    } else {
      BlocksAppend(blocks[1..], k - 1);
      assert blocks[..k + 1][1..] == blocks[1..][..k] && blocks[..k][1..] == blocks[1..][..k - 1];
      var a, b, c := BlockBytes(blocks[0]), BlocksBytes(blocks[1..][..k - 1]), BlockBytes(blocks[k]);
      assert a + (b + c) == (a + b) + c;
    }
  }

  /** Builds the canonical bytes of a message's content. */
  method CanonicalBytes(blocks: seq<Bytes>) returns (canonical: Bytes)
    requires ValidContent(blocks)
    ensures |blocks| < U32 && AllSized(blocks) && canonical == Canonical(blocks)
  {
    ValidSized(blocks);
    Powers();
    canonical := CONTENT_MAGIC;
    canonical := canonical + [CONTENT_VERSION];
    canonical := canonical + BigEndian(|blocks|, 4);
    ghost var head := canonical;
    for k := 0 to |blocks|
      invariant canonical == head + BlocksBytes(blocks[..k])
    {
      BlocksAppend(blocks, k);
      Associates(head, BlocksBytes(blocks[..k]), BlockBytes(blocks[k]));
      canonical := AppendBlock(blocks[k], canonical);
    }
    assert blocks[..|blocks|] == blocks;
  }

  method AppendBlock(text: Bytes, output: Bytes) returns (after: Bytes)
    requires |text| < U64
    ensures after == output + BlockBytes(text)
  {
    Powers();
    after := output + [TEXT_BLOCK_TAG];
    after := after + BigEndian(|text|, 8);
    after := after + text;
    Associates(output + [TEXT_BLOCK_TAG], BigEndian(|text|, 8), text);
    Associates(output, [TEXT_BLOCK_TAG], Framed(text));
  }

  lemma {:induction false} BlocksInjective(x: seq<Bytes>, y: seq<Bytes>)
    requires AllSized(x) && AllSized(y) && |x| == |y| && BlocksBytes(x) == BlocksBytes(y)
    ensures x == y
  {
    if x != [] {
      TagCancels(TEXT_BLOCK_TAG, Framed(x[0]), BlocksBytes(x[1..]), TEXT_BLOCK_TAG, Framed(y[0]), BlocksBytes(y[1..]));
      FramedCancels(x[0], BlocksBytes(x[1..]), y[0], BlocksBytes(y[1..]));
      BlocksInjective(x[1..], y[1..]);
      assert x == [x[0]] + x[1..] && y == [y[0]] + y[1..];
    }
  }

  /** Canonical bytes identify content. */
  lemma CanonicalInjective(x: seq<Bytes>, y: seq<Bytes>)
    requires |x| < U32 && AllSized(x) && |y| < U32 && AllSized(y)
    ensures Canonical(x) == Canonical(y) <==> x == y
  {
    Powers();
    if Canonical(x) == Canonical(y) {
      var head := CONTENT_MAGIC + [CONTENT_VERSION];
      PrefixCancels(head + BigEndian(|x|, 4), BlocksBytes(x), head + BigEndian(|y|, 4), BlocksBytes(y));
      PrefixCancels(head, BigEndian(|x|, 4), head, BigEndian(|y|, 4));
      BigEndianInjective(|x|, |y|, 4);
      BlocksInjective(x, y);
    }
  }

  // ----- reading content -----

  function ReadBlocks(s: Bytes, n: nat): Option<(seq<Bytes>, Bytes)>
    decreases n
  {
    if n == 0 then Some(([], s))
    else if s == [] || s[0] != 1 then None
    else
      match ReadFramed(s[1..])
      case None => None
      case Some((text, rest)) =>
        match ReadBlocks(rest, n - 1)
        case None => None
        case Some((blocks, end)) => Some(([text] + blocks, end))
  }

  /** Reads content: its name, version 1, a count in four bytes, and as many blocks, with nothing after them. */
  function ReadContent(s: Bytes): Option<seq<Bytes>> {
    var head := Ascii("craxii.content") + [1];
    if |s| < |head| + 4 || s[..|head|] != head then None
    else
      match ReadBlocks(s[|head| + 4..], FromBigEndian(s[|head|..|head| + 4]))
      case None => None
      case Some((blocks, end)) => if end == [] then Some(blocks) else None
  }

  /** The first block and what follows it. */
  lemma FirstBlock(blocks: seq<Bytes>, x: Bytes)
    requires AllSized(blocks) && blocks != []
    ensures var s := BlocksBytes(blocks) + x;
            s[0] == 1 && s[1..] == Framed(blocks[0]) + (BlocksBytes(blocks[1..]) + x)
  {
    Associates(BlockBytes(blocks[0]), BlocksBytes(blocks[1..]), x);
    AfterTag(1, Framed(blocks[0]), BlocksBytes(blocks[1..]) + x);
  }

  lemma {:induction false} BlocksRead(blocks: seq<Bytes>, x: Bytes)
    requires AllSized(blocks)
    ensures ReadBlocks(BlocksBytes(blocks) + x, |blocks|) == Some((blocks, x))
    decreases |blocks|
  {
    var s := BlocksBytes(blocks) + x;
    if blocks == [] {
      assert s == x;
    } else {
      FirstBlock(blocks, x);
      FramedReads(blocks[0], BlocksBytes(blocks[1..]) + x);
      BlocksRead(blocks[1..], x);
      ReadBlocksOne(s, |blocks|, blocks[0], BlocksBytes(blocks[1..]) + x);
      assert [blocks[0]] + blocks[1..] == blocks;
    }
  }

  lemma ReadBlocksOne(s: Bytes, n: nat, text: Bytes, rest: Bytes)
    requires n > 0 && s != [] && s[0] == 1 && ReadFramed(s[1..]) == Some((text, rest))
    ensures ReadBlocks(s, n) ==
            match ReadBlocks(rest, n - 1) { case None => None case Some((blocks, end)) => Some(([text] + blocks, end)) }
  {
  }

  /** Canonical bytes are read back as the content they were made of. */
  lemma CanonicalReads(blocks: seq<Bytes>)
    requires |blocks| < U32 && AllSized(blocks)
    ensures ReadContent(Canonical(blocks)) == Some(blocks)
  {
    Powers();
    var head, s := Ascii("craxii.content") + [1], Canonical(blocks);
    assert head == CONTENT_MAGIC + [CONTENT_VERSION];
    assert s[..|head|] == head && s[|head|..|head| + 4] == BigEndian(|blocks|, 4);
    BigEndianReads(|blocks|, 4);
    BlocksRead(blocks, []);
    assert s[|head| + 4..] == BlocksBytes(blocks) + [];
  }

  // ----- inbound events -----

  /** "craxii.inbound-material", then version 1 */
  const MATERIAL_HEADER: Bytes :=
    [0x63, 0x72, 0x61, 0x78, 0x69, 0x69, 0x2E, 0x69, 0x6E, 0x62, 0x6F, 0x75, 0x6E, 0x64, 0x2D, 0x6D, 0x61, 0x74,
     0x65, 0x72, 0x69, 0x61, 0x6C, 0x01]

  datatype UnsupportedKind = NonText | Edit | Reaction | Other
  {
    function Tag(): byte {
      match this
      case NonText => 1
      case Edit => 2
      case Reaction => 3
      case Other => 4
    }
  }

  datatype Payload = Text(blocks: seq<Bytes>) | Unsupported(kind: UnsupportedKind)

  /** Identifiers and times stand by their canonical texts. */
  datatype InboundEvent = InboundEvent(
    account: Bytes, eventId: Bytes, messageId: Option<Bytes>, sender: Bytes, conversation: Bytes, thread: Option<Bytes>,
    payload: Payload, occurredAt: Option<Bytes>, observedAt: Bytes)

  ghost predicate OptionSized(v: Option<Bytes>) {
    v.Some? ==> |v.value| < U64
  }

  /** Every length fits the 64 bits it is written in. */
  ghost predicate Sized(e: InboundEvent) {
    && |e.account| < U64 && |e.sender| < U64 && |e.conversation| < U64
    && OptionSized(e.thread) && OptionSized(e.messageId) && OptionSized(e.occurredAt)
    && (e.payload.Text? ==> ValidContent(e.payload.blocks))
  }

  ghost function PayloadBytes(p: Payload): Bytes
    requires p.Text? ==> ValidContent(p.blocks)
  {
    match p
    case Text(blocks) =>
      ValidSized(blocks);
      [1] + Framed(Canonical(blocks))
    case Unsupported(kind) => [2] + [kind.Tag()]
  }

  ghost function Material(e: InboundEvent): Bytes
    requires Sized(e)
  {
    var rest := Optional(e.thread) + (Optional(e.messageId) + (PayloadBytes(e.payload) + Optional(e.occurredAt)));
    MATERIAL_HEADER + (Framed(e.account) + (Framed(e.sender) + (Framed(e.conversation) + rest)))
  }

  /** The same event, whatever id it came under and whenever it was seen. */
  ghost predicate SameMaterial(a: InboundEvent, b: InboundEvent) {
    && a.account == b.account && a.sender == b.sender && a.conversation == b.conversation && a.thread == b.thread
    && a.messageId == b.messageId && a.payload == b.payload && a.occurredAt == b.occurredAt
  }

  method AppendFramed(bytes: Bytes, output: Bytes) returns (after: Bytes)
    requires |bytes| < U64
    ensures after == output + Framed(bytes)
  {
    Powers();
    after := output + BigEndian(|bytes|, 8);
    after := after + bytes;
  }

  method AppendOptional(value: Option<Bytes>, output: Bytes) returns (after: Bytes)
    requires OptionSized(value)
    ensures after == output + Optional(value)
  {
    if value.Some? {
      after := output + [1];
      after := AppendFramed(value.value, after);
      Associates(output, [1], Framed(value.value));
    } else {
      after := output + [0];
    }
  }

  method AppendPayload(payload: Payload, output: Bytes) returns (after: Bytes)
    requires payload.Text? ==> ValidContent(payload.blocks)
    ensures after == output + PayloadBytes(payload)
  {
    match payload
    case Text(blocks) =>
      after := output + [1];
      ValidSized(blocks);
      var canonical := CanonicalBytes(blocks);
      after := AppendFramed(canonical, after);
      Associates(output, [1], Framed(canonical));
    case Unsupported(kind) =>
      after := output + [2];
      after := after + [kind.Tag()];
      Associates(output, [2], [kind.Tag()]);
  }

  /** Builds the bytes an event's material digest is taken of. */
  method MaterialBytes(e: InboundEvent) returns (material: Bytes)
    requires Sized(e)
    ensures material == Material(e)
  {
    material := MATERIAL_HEADER;
    material := AppendFramed(e.account, material);
    material := AppendFramed(e.sender, material);
    material := AppendFramed(e.conversation, material);
    material := AppendOptional(e.thread, material);
    material := AppendOptional(e.messageId, material);
    material := AppendPayload(e.payload, material);
    material := AppendOptional(e.occurredAt, material);
    Nested(MATERIAL_HEADER, Framed(e.account), Framed(e.sender), Framed(e.conversation), Optional(e.thread), Optional(e.messageId),
           PayloadBytes(e.payload), Optional(e.occurredAt));
  }

  lemma Nested(a: Bytes, b: Bytes, c: Bytes, d: Bytes, e: Bytes, f: Bytes, g: Bytes, h: Bytes)
    ensures a + b + c + d + e + f + g + h == a + (b + (c + (d + (e + (f + (g + h))))))
  {
  }

  lemma PayloadCancels(a: Payload, x: Bytes, b: Payload, y: Bytes)
    requires (a.Text? ==> ValidContent(a.blocks)) && (b.Text? ==> ValidContent(b.blocks))
    requires PayloadBytes(a) + x == PayloadBytes(b) + y
    ensures a == b && x == y
  {
    if a.Text? {
      ValidSized(a.blocks);
    }
    if b.Text? {
      ValidSized(b.blocks);
    }
    var p := if a.Text? then Framed(Canonical(a.blocks)) else [a.kind.Tag()];
    var q := if b.Text? then Framed(Canonical(b.blocks)) else [b.kind.Tag()];
    TagCancels(if a.Text? then 1 else 2, p, x, if b.Text? then 1 else 2, q, y);
    if a.Text? {
      FramedCancels(Canonical(a.blocks), x, Canonical(b.blocks), y);
      CanonicalInjective(a.blocks, b.blocks);
    } else {
      PrefixCancels(p, x, q, y);
    }
  }

  /** Two events have the same material bytes exactly when they are the same event. */
  lemma MaterialIdentifies(a: InboundEvent, b: InboundEvent)
    requires Sized(a) && Sized(b)
    ensures Material(a) == Material(b) <==> SameMaterial(a, b)
  {
    if Material(a) == Material(b) {
      var a6, b6 := PayloadBytes(a.payload) + Optional(a.occurredAt), PayloadBytes(b.payload) + Optional(b.occurredAt);
      var a5, b5 := Optional(a.messageId) + a6, Optional(b.messageId) + b6;
      var a4, b4 := Optional(a.thread) + a5, Optional(b.thread) + b5;
      var a3, b3 := Framed(a.conversation) + a4, Framed(b.conversation) + b4;
      var a2, b2 := Framed(a.sender) + a3, Framed(b.sender) + b3;
      PrefixCancels(MATERIAL_HEADER, Framed(a.account) + a2, MATERIAL_HEADER, Framed(b.account) + b2);
      FramedCancels(a.account, a2, b.account, b2);
      FramedCancels(a.sender, a3, b.sender, b3);
      FramedCancels(a.conversation, a4, b.conversation, b4);
      OptionalCancels(a.thread, a5, b.thread, b5);
      OptionalCancels(a.messageId, a6, b.messageId, b6);
      PayloadCancels(a.payload, Optional(a.occurredAt), b.payload, Optional(b.occurredAt));
      TimesEqual(a.occurredAt, b.occurredAt);
    }
  }

  lemma TimesEqual(a: Option<Bytes>, b: Option<Bytes>)
    requires OptionSized(a) && OptionSized(b) && Optional(a) == Optional(b)
    ensures a == b
  {
    assert Optional(a) + [] == Optional(a) && Optional(b) + [] == Optional(b);
    OptionalCancels(a, [], b, []);
  }

  // ----- reading material -----

  /** What the material of an event tells. */
  datatype Told = Told(
    account: Bytes, sender: Bytes, conversation: Bytes, thread: Option<Bytes>, messageId: Option<Bytes>, payload: Payload,
    occurredAt: Option<Bytes>)

  function KindOf(tag: byte): Option<UnsupportedKind> {
    if tag == 1 then Some(NonText) else if tag == 2 then Some(Edit) else if tag == 3 then Some(Reaction)
    else if tag == 4 then Some(Other) else None
  }

  /** Reads a text payload, tagged 1, or the kind of an unsupported one, tagged 2. */
  function ReadPayload(s: Bytes): Option<(Payload, Bytes)> {
    if |s| < 2 then None
    else if s[0] == 1 then
      (match ReadFramed(s[1..])
       case None => None
       case Some((canonical, rest)) =>
         match ReadContent(canonical)
         case None => None
         case Some(blocks) => Some((Text(blocks), rest)))
    else if s[0] == 2 && KindOf(s[1]).Some? then Some((Unsupported(KindOf(s[1]).value), s[2..]))
    else None
  }

  /** Reads the part of the material that follows the conversation. */
  function ReadRest(account: Bytes, sender: Bytes, conversation: Bytes, s: Bytes): Option<Told> {
    match ReadOptional(s)
    case None => None
    case Some((thread, t)) =>
      match ReadOptional(t)
      case None => None
      case Some((messageId, u)) =>
        match ReadPayload(u)
        case None => None
        case Some((payload, v)) =>
          match ReadOptional(v)
          case None => None
          case Some((occurredAt, end)) =>
            if end == [] then Some(Told(account, sender, conversation, thread, messageId, payload, occurredAt)) else None
  }

  /** Reads material: its name and version 1, account, sender, conversation, thread, message id, payload and time. */
  function ReadMaterial(s: Bytes): Option<Told> {
    var head := Ascii("craxii.inbound-material") + [1];
    if |s| < |head| || s[..|head|] != head then None
    else
      match ReadFramed(s[|head|..])
      case None => None
      case Some((account, t)) =>
        match ReadFramed(t)
        case None => None
        case Some((sender, u)) =>
          match ReadFramed(u)
          case None => None
          case Some((conversation, v)) => ReadRest(account, sender, conversation, v)
  }

  lemma TextReads(blocks: seq<Bytes>, x: Bytes)
    requires ValidContent(blocks)
    ensures ReadPayload(PayloadBytes(Text(blocks)) + x) == Some((Text(blocks), x))
  {
    ValidSized(blocks);
    var canonical := Canonical(blocks);
    AfterTag(1, Framed(canonical), x);
    FramedReads(canonical, x);
    CanonicalReads(blocks);
    assert |PayloadBytes(Text(blocks)) + x| >= 2 by { Powers(); }
  }

  lemma PayloadReads(p: Payload, x: Bytes)
    requires p.Text? ==> ValidContent(p.blocks)
    ensures ReadPayload(PayloadBytes(p) + x) == Some((p, x))
  {
    match p
    case Text(blocks) => TextReads(blocks, x);
    case Unsupported(kind) =>
      var s := PayloadBytes(p) + x;
      assert s[0] == 2 && s[1] == kind.Tag() && s[2..] == x;
  }

  lemma RestReads(e: InboundEvent)
    requires Sized(e)
    ensures var rest := Optional(e.thread) + (Optional(e.messageId) + (PayloadBytes(e.payload) + Optional(e.occurredAt)));
            ReadRest(e.account, e.sender, e.conversation, rest) ==
            Some(Told(e.account, e.sender, e.conversation, e.thread, e.messageId, e.payload, e.occurredAt))
  {
    var last := Optional(e.occurredAt);
    OptionalReads(e.thread, Optional(e.messageId) + (PayloadBytes(e.payload) + last));
    OptionalReads(e.messageId, PayloadBytes(e.payload) + last);
    PayloadReads(e.payload, last);
    OptionalReads(e.occurredAt, []);
    assert last + [] == last;
  }

  /** Material is read back as the event it was made of, except for the id it came under and when it was seen. */
  lemma MaterialReads(e: InboundEvent)
    requires Sized(e)
    ensures ReadMaterial(Material(e)) ==
            Some(Told(e.account, e.sender, e.conversation, e.thread, e.messageId, e.payload, e.occurredAt))
  {
    var head, s := Ascii("craxii.inbound-material") + [1], Material(e);
    assert head == MATERIAL_HEADER;
    var rest := Optional(e.thread) + (Optional(e.messageId) + (PayloadBytes(e.payload) + Optional(e.occurredAt)));
    assert s[..|head|] == head && s[|head|..] == Framed(e.account) + (Framed(e.sender) + (Framed(e.conversation) + rest));
    FramedReads(e.account, Framed(e.sender) + (Framed(e.conversation) + rest));
    FramedReads(e.sender, Framed(e.conversation) + rest);
    FramedReads(e.conversation, rest);
    RestReads(e);
  }

  /** Under a digest without collisions, the material digest identifies the event. */
  lemma DigestIdentifies(a: InboundEvent, b: InboundEvent, sha256: Bytes -> Bytes)
    requires Sized(a) && Sized(b) && forall x, y :: sha256(x) == sha256(y) ==> x == y
    ensures sha256(Material(a)) == sha256(Material(b)) <==> SameMaterial(a, b)
  {
    MaterialIdentifies(a, b);
  }
}
