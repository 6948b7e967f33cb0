/** The messages the modules exchange, as bytes: what they hold, how long they are, how they are read back. */
module Wire {
  import opened Common

  /** A message is a list of 32-bit words and of texts, each text after its length. */
  datatype Item = Word(value: int) | Text(bytes: seq<byte>)

  datatype Kind = AWord | AText

  predicate Int32(v: int) {
    -0x8000_0000 <= v < 0x8000_0000
  }

  predicate Sendable(item: Item) {
    match item
    case Word(v) => Int32(v)
    case Text(bytes) => Int32(|bytes|)
  }

  predicate AllSendable(items: seq<Item>) {
    forall i :: 0 <= i < |items| ==> Sendable(items[i])
  }

  function KindOf(item: Item): Kind {
    if item.Word? then AWord else AText
  }

  function Kinds(items: seq<Item>): (k: seq<Kind>)
    ensures |k| == |items|
  {
    if items == [] then [] else [KindOf(items[0])] + Kinds(items[1..])
  }

  /** Two's complement, the least significant byte first. */
  function Bytes32(v: int): (b: seq<byte>)
    requires Int32(v)
    ensures |b| == 4
  {
    var u := if v < 0 then v + 0x1_0000_0000 else v;
    [(u % 256) as byte, (u / 256 % 256) as byte, (u / 0x1_0000 % 256) as byte, (u / 0x100_0000) as byte]
  }

  function Word32(b: seq<byte>): (v: int)
    requires |b| == 4
    ensures Int32(v)
  {
    var u := b[0] as int + b[1] as int * 256 + b[2] as int * 0x1_0000 + b[3] as int * 0x100_0000;
    if u < 0x8000_0000 then u else u - 0x1_0000_0000
  }

  lemma WordRoundTrip(v: int)
    requires Int32(v)
    ensures Word32(Bytes32(v)) == v
  {
    var u := if v < 0 then v + 0x1_0000_0000 else v;
    assert u / 256 / 256 == u / 0x1_0000 && u / 0x1_0000 / 256 == u / 0x100_0000;
    assert u % 256 + 256 * (u / 256) == u;
    assert u / 256 % 256 + 256 * (u / 0x1_0000) == u / 256;
    assert u / 0x1_0000 % 256 + 256 * (u / 0x100_0000) == u / 0x1_0000;
  }

  /** The four bytes are the digits, in base 256 and the least significant first, of the value modulo 2^32. */
  lemma WordIsLittleEndian(v: int)
    requires Int32(v)
    ensures var b := Bytes32(v);
            b[0] as int + 256 * (b[1] as int) + 0x1_0000 * (b[2] as int) + 0x100_0000 * (b[3] as int) == v % 0x1_0000_0000
  {
    var u := if v < 0 then v + 0x1_0000_0000 else v;
    assert u == v % 0x1_0000_0000;
    WordRoundTrip(v);
  }

  function ItemBytes(item: Item): seq<byte>
    requires Sendable(item)
  {
    match item
    case Word(v) => Bytes32(v)
    case Text(bytes) => Bytes32(|bytes|) + bytes
  }

  function Encode(items: seq<Item>): seq<byte>
    requires AllSendable(items)
  {
    if items == [] then [] else ItemBytes(items[0]) + Encode(items[1..])
  }

  /** The first item of that kind, and what follows it; none when the bytes run out or a length is negative. */
  function DecodeItem(kind: Kind, bytes: seq<byte>): Option<(Item, seq<byte>)> {
    if |bytes| < 4 then None
    else
      var v, rest := Word32(bytes[..4]), bytes[4..];
      match kind
      case AWord => Some((Word(v), rest))
      case AText => if 0 <= v <= |rest| then Some((Text(rest[..v]), rest[v..])) else None
  }

  function Decode(kinds: seq<Kind>, bytes: seq<byte>): Option<(seq<Item>, seq<byte>)> {
    if kinds == [] then Some(([], bytes))
    else
      match DecodeItem(kinds[0], bytes)
      case None => None
      case Some((item, rest)) =>
        match Decode(kinds[1..], rest)
        case None => None
        case Some((items, left)) => Some(([item] + items, left))
  }

  lemma DecodeItemBytes(item: Item, rest: seq<byte>)
    requires Sendable(item)
    ensures DecodeItem(KindOf(item), ItemBytes(item) + rest) == Some((item, rest))
  {
    var b := ItemBytes(item) + rest;
    match item {
      case Word(v) =>
        WordRoundTrip(v);
        assert b[..4] == Bytes32(v) && b[4..] == rest;
      case Text(bytes) =>
        WordRoundTrip(|bytes|);
        assert b[..4] == Bytes32(|bytes|) && b[4..] == bytes + rest;
        assert (bytes + rest)[..|bytes|] == bytes && (bytes + rest)[|bytes|..] == rest;
    }
  }

  lemma DecodeCons(item: Item, items: seq<Item>, bytes: seq<byte>, tail: seq<byte>, rest: seq<byte>)
    requires DecodeItem(KindOf(item), bytes) == Some((item, tail))
    requires Decode(Kinds(items), tail) == Some((items, rest))
    ensures Decode([KindOf(item)] + Kinds(items), bytes) == Some(([item] + items, rest))
  {
    var kinds := [KindOf(item)] + Kinds(items);
    assert kinds[0] == KindOf(item) && kinds[1..] == Kinds(items);
    hide DecodeItem, Kinds;
  }

  /** Decoding what was encoded gives every item back and stops exactly where it ends. */
  lemma {:induction false} DecodeEncode(items: seq<Item>, rest: seq<byte>)
    requires AllSendable(items)
    ensures Decode(Kinds(items), Encode(items) + rest) == Some((items, rest))
  {
    if items == [] {
      assert Encode(items) + rest == rest;
    } else {
      var first, more := items[0], items[1..];
      var tail := Encode(more) + rest;
      assert Encode(items) + rest == ItemBytes(first) + tail;
      DecodeItemBytes(first, tail);
      DecodeEncode(more, rest);
      DecodeCons(first, more, Encode(items) + rest, tail, rest);
      hide Decode, DecodeItem, Encode, ItemBytes;
      assert [first] + more == items;
    }
  }

  lemma {:induction false} EncodeAppend(items: seq<Item>, item: Item)
    requires AllSendable(items) && Sendable(item)
    ensures AllSendable(items + [item]) && Encode(items + [item]) == Encode(items) + ItemBytes(item)
  {
    var all := items + [item];
    if items == [] {
      assert all == [item] && all[1..] == [];
      assert Encode(all) == ItemBytes(item) + [];
    } else {
      assert all[0] == items[0] && all[1..] == items[1..] + [item];
      EncodeAppend(items[1..], item);
      assert ItemBytes(items[0]) + (Encode(items[1..]) + ItemBytes(item)) == Encode(items) + ItemBytes(item);
    }
  }

  // ----------------------------------------------------------------- messages

  datatype Query = Query(id: int, priority: int, pc: int, action: int, path: seq<byte>)

  datatype Instruction = Instruction(
    query: int, code: int, fileTag: seq<byte>, file: seq<byte>, tag: seq<byte>, size: int, base: int,
    content: seq<byte>, toFile: seq<byte>, toTag: seq<byte>, block: int)

  datatype QueryReply = QueryReply(code: int, pc: int, message: seq<byte>, file: seq<byte>, tag: seq<byte>)

  datatype StorageReply = StorageReply(code: int, content: seq<byte>, error: seq<byte>)

  function QueryItems(q: Query): seq<Item> {
    [Word(q.id), Word(q.priority), Word(q.pc), Word(q.action), Text(q.path)]
  }

  function InstructionItems(i: Instruction): seq<Item> {
    [Word(i.query), Word(i.code), Text(i.fileTag), Text(i.file), Text(i.tag), Word(i.size), Word(i.base),
     Text(i.content), Text(i.toFile), Text(i.toTag), Word(i.block)]
  }

  function QueryReplyItems(r: QueryReply): seq<Item> {
    [Word(r.code), Word(r.pc), Text(r.message), Text(r.file), Text(r.tag)]
  }

  function StorageReplyItems(r: StorageReply): seq<Item> {
    [Word(r.code), Text(r.content), Text(r.error)]
  }

  /** What is left to encode from item `k` on. */
  lemma EncodeAt(items: seq<Item>, k: nat)
    requires AllSendable(items) && k < |items|
    ensures Sendable(items[k]) && AllSendable(items[k..]) && AllSendable(items[k + 1..])
    ensures Encode(items[k..]) == ItemBytes(items[k]) + Encode(items[k + 1..])
  {
    assert items[k..][1..] == items[k + 1..];
  }

  lemma EncodeEnds(items: seq<Item>)
    ensures items[0..] == items && items[|items|..] == [] && Encode([]) == []
  {
  }

  /** A text as it travels: its length, then its bytes. */
  function Lengthened(bytes: seq<byte>): seq<byte>
    requires Int32(|bytes|)
  {
    Bytes32(|bytes|) + bytes
  }

  // What each message looks like, byte after byte.

  lemma QueryLayout(q: Query)
    requires AllSendable(QueryItems(q))
    ensures Int32(q.id) && Int32(q.priority) && Int32(q.pc) && Int32(q.action) && Int32(|q.path|)
    ensures Encode(QueryItems(q)) == Bytes32(q.id) + (Bytes32(q.priority) + (Bytes32(q.pc) + (Bytes32(q.action) + (Lengthened(q.path) + []))))
  {
    var s := QueryItems(q);
    EncodeEnds(s);
    EncodeAt(s, 0); EncodeAt(s, 1); EncodeAt(s, 2); EncodeAt(s, 3); EncodeAt(s, 4);
    hide Encode, AllSendable, Bytes32;
  }

  lemma StorageReplyLayout(r: StorageReply)
    requires AllSendable(StorageReplyItems(r))
    ensures Int32(r.code) && Int32(|r.content|) && Int32(|r.error|)
    ensures Encode(StorageReplyItems(r)) == Bytes32(r.code) + (Lengthened(r.content) + (Lengthened(r.error) + []))
  {
    var s := StorageReplyItems(r);
    EncodeEnds(s);
    EncodeAt(s, 0); EncodeAt(s, 1); EncodeAt(s, 2);
    hide Encode, AllSendable, Bytes32;
  }

  lemma QueryReplyLayout(r: QueryReply)
    requires AllSendable(QueryReplyItems(r))
    ensures Int32(r.code) && Int32(r.pc) && Int32(|r.message|) && Int32(|r.file|) && Int32(|r.tag|)
    ensures Encode(QueryReplyItems(r)) == Bytes32(r.code) + (Bytes32(r.pc) + (Lengthened(r.message) + (Lengthened(r.file) + (Lengthened(r.tag) + []))))
  {
    var s := QueryReplyItems(r);
    EncodeEnds(s);
    EncodeAt(s, 0); EncodeAt(s, 1); EncodeAt(s, 2); EncodeAt(s, 3); EncodeAt(s, 4);
    hide Encode, AllSendable, Bytes32;
  }

  lemma InstructionLayout(i: Instruction)
    requires AllSendable(InstructionItems(i))
    ensures Int32(i.query) && Int32(i.code) && Int32(|i.fileTag|) && Int32(|i.file|) && Int32(|i.tag|) && Int32(i.size)
    ensures Int32(i.base) && Int32(|i.content|) && Int32(|i.toFile|) && Int32(|i.toTag|) && Int32(i.block)
    ensures Encode(InstructionItems(i)) ==
            Bytes32(i.query) + (Bytes32(i.code) + (Lengthened(i.fileTag) + (Lengthened(i.file) + (Lengthened(i.tag) +
            (Bytes32(i.size) + (Bytes32(i.base) + (Lengthened(i.content) + (Lengthened(i.toFile) + (Lengthened(i.toTag) +
            (Bytes32(i.block) + []))))))))))
  {
    InstructionHead(i);
    InstructionTail(i);
    hide *;
  }

  lemma InstructionHead(i: Instruction)
    requires AllSendable(InstructionItems(i))
    ensures Int32(i.query) && Int32(i.code) && Int32(|i.fileTag|) && Int32(|i.file|) && Int32(|i.tag|)
    ensures AllSendable(InstructionItems(i)[5..])
    ensures Encode(InstructionItems(i)) ==
            Bytes32(i.query) + (Bytes32(i.code) + (Lengthened(i.fileTag) + (Lengthened(i.file) + (Lengthened(i.tag) +
            Encode(InstructionItems(i)[5..])))))
  {
    var s := InstructionItems(i);
    EncodeEnds(s);
    EncodeAt(s, 0); EncodeAt(s, 1); EncodeAt(s, 2); EncodeAt(s, 3); EncodeAt(s, 4);
    hide Encode, AllSendable, Bytes32;
  }

  lemma InstructionTail(i: Instruction)
    requires AllSendable(InstructionItems(i))
    ensures Int32(i.size) && Int32(i.base) && Int32(|i.content|) && Int32(|i.toFile|) && Int32(|i.toTag|) && Int32(i.block)
    ensures AllSendable(InstructionItems(i)[5..])
    ensures Encode(InstructionItems(i)[5..]) ==
            Bytes32(i.size) + (Bytes32(i.base) + (Lengthened(i.content) + (Lengthened(i.toFile) + (Lengthened(i.toTag) +
            (Bytes32(i.block) + [])))))
  {
    var s := InstructionItems(i);
    EncodeEnds(s);
    EncodeAt(s, 5); EncodeAt(s, 6); EncodeAt(s, 7); EncodeAt(s, 8); EncodeAt(s, 9); EncodeAt(s, 10);
    hide Encode, AllSendable, Bytes32;
  }

  // The sizes computed before any byte is written.

  function QuerySize(q: Query): int {
    4 * 5 + |q.path|
  }

  function InstructionSize(i: Instruction): int {
    4 * 10 + 4 + |i.file| + |i.tag| + |i.content| + |i.toFile| + |i.toTag| + |i.fileTag|
  }

  function QueryReplySize(r: QueryReply): int {
    4 * 4 + 4 + |r.message| + |r.file| + |r.tag|
  }

  function StorageReplySize(r: StorageReply): int {
    4 + 4 + |r.content| + |r.error| + 4
  }

  function Length(item: Item): nat {
    if item.Word? then 4 else 4 + |item.bytes|
  }

  function TotalLength(items: seq<Item>): nat {
    if items == [] then 0 else Length(items[0]) + TotalLength(items[1..])
  }

  lemma {:induction false} EncodeLength(items: seq<Item>)
    requires AllSendable(items)
    ensures |Encode(items)| == TotalLength(items)
  {
    if items != [] { EncodeLength(items[1..]); }
  }

  lemma {:induction false} PrefixFits(items: seq<Item>, k: nat)
    requires k < |items|
    ensures TotalLength(items[..k]) + Length(items[k]) <= TotalLength(items)
  {
    if k > 0 {
      PrefixFits(items[1..], k - 1);
      assert items[..k][1..] == items[1..][..k - 1];
    }
  }

  lemma TotalCons(a: Item, more: seq<Item>)
    ensures TotalLength([a] + more) == Length(a) + TotalLength(more)
  {
    assert ([a] + more)[1..] == more;
  }

  lemma Total3(a: Item, b: Item, c: Item, more: seq<Item>)
    ensures TotalLength([a, b, c] + more) == Length(a) + Length(b) + Length(c) + TotalLength(more)
  {
    assert [a, b, c] + more == [a] + ([b] + ([c] + more));
    TotalCons(a, [b] + ([c] + more));
    TotalCons(b, [c] + more);
    TotalCons(c, more);
  }

  /** The size computed for a query is exactly what its message takes. */
  lemma QuerySizeIsExact(q: Query)
    ensures TotalLength(QueryItems(q)) == QuerySize(q)
  {
    var s := QueryItems(q);
    assert s == [s[0], s[1], s[2]] + ([s[3]] + ([s[4]] + []));
    Total3(s[0], s[1], s[2], [s[3]] + ([s[4]] + []));
    TotalCons(s[3], [s[4]] + []);
    TotalCons(s[4], []);
  }

  lemma InstructionSizeIsExact(i: Instruction)
    ensures TotalLength(InstructionItems(i)) == InstructionSize(i)
  {
    var s := InstructionItems(i);
    assert s == [s[0], s[1], s[2]] + s[3..];
    Total3(s[0], s[1], s[2], s[3..]);
    assert s[3..] == [s[3], s[4], s[5]] + s[6..];
    Total3(s[3], s[4], s[5], s[6..]);
    assert s[6..] == [s[6], s[7], s[8]] + ([s[9]] + ([s[10]] + []));
    Total3(s[6], s[7], s[8], [s[9]] + ([s[10]] + []));
    TotalCons(s[9], [s[10]] + []);
    TotalCons(s[10], []);
    hide TotalLength;
  }

  lemma QueryReplySizeIsExact(r: QueryReply)
    ensures TotalLength(QueryReplyItems(r)) == QueryReplySize(r)
  {
    var s := QueryReplyItems(r);
    assert s == [s[0], s[1], s[2]] + ([s[3]] + ([s[4]] + []));
    Total3(s[0], s[1], s[2], [s[3]] + ([s[4]] + []));
    TotalCons(s[3], [s[4]] + []);
    TotalCons(s[4], []);
  }

  lemma StorageReplySizeIsExact(r: StorageReply)
    ensures TotalLength(StorageReplyItems(r)) == StorageReplySize(r)
  {
    var s := StorageReplyItems(r);
    assert s == [s[0], s[1], s[2]] + [];
    Total3(s[0], s[1], s[2], []);
  }

  // The order in which the readers take each message apart.

  function QueryKinds(): seq<Kind> {
    [AWord, AWord, AWord, AWord, AText]
  }

  function InstructionKinds(): seq<Kind> {
    [AWord, AWord, AText, AText, AText, AWord, AWord, AText, AText, AText, AWord]
  }

  function QueryReplyKinds(): seq<Kind> {
    [AWord, AWord, AText, AText, AText]
  }

  function StorageReplyKinds(): seq<Kind> {
    [AWord, AText, AText]
  }

  lemma {:induction false} KindsAt(items: seq<Item>, i: nat)
    requires i < |items|
    ensures Kinds(items)[i] == KindOf(items[i])
  {
    if i > 0 { KindsAt(items[1..], i - 1); }
  }

  /** The written items are the ones the readers expect. */
  lemma KindsAgree(q: Query, i: Instruction, r: QueryReply, s: StorageReply)
    ensures Kinds(QueryItems(q)) == QueryKinds()
    ensures Kinds(InstructionItems(i)) == InstructionKinds()
    ensures Kinds(QueryReplyItems(r)) == QueryReplyKinds()
    ensures Kinds(StorageReplyItems(s)) == StorageReplyKinds()
  {
    SameKinds(QueryItems(q), QueryKinds());
    SameKinds(InstructionItems(i), InstructionKinds());
    SameKinds(QueryReplyItems(r), QueryReplyKinds());
    SameKinds(StorageReplyItems(s), StorageReplyKinds());
  }

  lemma SameKinds(items: seq<Item>, kinds: seq<Kind>)
    requires |items| == |kinds| && forall i :: 0 <= i < |items| ==> KindOf(items[i]) == kinds[i]
    ensures Kinds(items) == kinds
  {
    forall i | 0 <= i < |items| ensures Kinds(items)[i] == kinds[i] { KindsAt(items, i); }
  }

  /** Two instructions never share their bytes; the same holds of the other messages. */
  lemma InstructionInjective(a: Instruction, b: Instruction)
    requires AllSendable(InstructionItems(a)) && AllSendable(InstructionItems(b))
    requires Encode(InstructionItems(a)) == Encode(InstructionItems(b))
    ensures a == b
  {
    var x, y := InstructionItems(a), InstructionItems(b);
    assert x == y by {
      hide *;
      SameKinds(x, InstructionKinds());
      SameKinds(y, InstructionKinds());
      SameItems(x, y);
    }
    hide AllSendable, Encode;
    assert x[0] == y[0] && x[1] == y[1] && x[2] == y[2] && x[3] == y[3] && x[4] == y[4] && x[5] == y[5];
    assert x[6] == y[6] && x[7] == y[7] && x[8] == y[8] && x[9] == y[9] && x[10] == y[10];
  }

  lemma SameItems(x: seq<Item>, y: seq<Item>)
    requires AllSendable(x) && AllSendable(y) && Kinds(x) == Kinds(y) && Encode(x) == Encode(y)
    ensures x == y
  {
    DecodeEncode(x, []);
    DecodeEncode(y, []);
    hide Decode, Encode, Kinds, AllSendable;
  }
}
