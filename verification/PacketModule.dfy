/** The cursor buffer that messages are written into and read from, and the messages' own writers and readers. */
module PacketModule {
  import opened Common
  import opened Wire

  class Buffer {
    const size: nat
    const stream: array<byte>
    var offset: nat

    ghost predicate Valid()
      reads this
    {
      stream.Length == size && offset <= size
    }

    /** What is before the cursor. */
    ghost function Filled(): seq<byte>
      requires Valid()
      reads this, stream
    {
      stream[..offset]
    }

    /** What is after the cursor. */
    ghost function Left(): seq<byte>
      requires Valid()
      reads this, stream
    {
      stream[offset..]
    }

    constructor (size: nat)
      ensures Valid() && this.size == size && offset == 0 && fresh(stream)
    {
      this.size := size;
      this.offset := 0;
      this.stream := new byte[size];
    }

    /** Copies the data at the cursor and moves it on. */
    method Add(data: seq<byte>)
      requires Valid() && offset + |data| <= size
      modifies this`offset, stream
      ensures Valid() && offset == old(offset) + |data| && Filled() == old(Filled()) + data
    {
      var i := 0;
      while i < |data|
        invariant 0 <= i <= |data| && offset == old(offset)
        invariant stream[..offset] == old(stream[..offset])
        invariant stream[offset..offset + i] == data[..i]
      {
        stream[offset + i] := data[i];
        i := i + 1;
      }
      offset := offset + |data|;
    }

    /** Copies that many bytes from the cursor and moves it on. */
    method Take(n: nat) returns (data: seq<byte>)
      requires Valid() && n <= |Left()|
      modifies this`offset
      ensures Valid() && offset == old(offset) + n
      ensures data == old(Left())[..n] && Left() == old(Left())[n..]
    {
      data := [];
      var i := 0;
      while i < n
        invariant 0 <= i <= n && offset == old(offset)
        invariant data == stream[offset..offset + i]
      {
        data := data + [stream[offset + i]];
        i := i + 1;
      }
      offset := offset + n;
    }

    /** A word, or a text after its length. */
    method AddItem(item: Item)
      requires Valid() && Sendable(item) && offset + Length(item) <= size
      modifies this`offset, stream
      ensures Valid() && offset == old(offset) + Length(item) && Filled() == old(Filled()) + ItemBytes(item)
    {
      match item {
        case Word(v) => Add(Bytes32(v));
        case Text(bytes) =>
          Add(Bytes32(|bytes|));
          Add(bytes);
      }
    }

    method TakeItem(kind: Kind) returns (item: Item)
      requires Valid() && DecodeItem(kind, Left()).Some?
      modifies this`offset
      ensures Valid() && DecodeItem(kind, old(Left())) == Some((item, Left()))
    {
      var word := Take(4);
      match kind {
        case AWord => item := Word(Word32(word));
        case AText =>
          var bytes := Take(Word32(word));
          item := Text(bytes);
      }
    }

    method Rewind()
      requires Valid()
      modifies this`offset
      ensures Valid() && Left() == stream[..]
    {
      offset := 0;
    }
  }

  // ------------------------------------------------------------------- writing

  /** The buffer holds exactly these items and is full. */
  ghost predicate Holds(b: Buffer, items: seq<Item>)
    reads b, b.stream
  {
    b.Valid() && AllSendable(items) && b.offset == b.size && b.stream[..] == Encode(items)
  }

  /** The first `k` items of a message that the buffer has the exact size for are in. */
  ghost predicate Written(b: Buffer, items: seq<Item>, k: nat)
    reads b, b.stream
  {
    && b.Valid() && k <= |items| && AllSendable(items) && b.size == TotalLength(items)
    && b.Filled() == Encode(items[..k])
  }

  lemma Fits(b: Buffer, items: seq<Item>, k: nat)
    requires Written(b, items, k) && k < |items|
    ensures b.offset == TotalLength(items[..k]) && b.offset + Length(items[k]) <= b.size
  {
    EncodeLength(items[..k]);
    PrefixFits(items, k);
  }

  lemma EncodeNext(items: seq<Item>, k: nat)
    requires k < |items| && AllSendable(items)
    ensures Encode(items[..k + 1]) == Encode(items[..k]) + ItemBytes(items[k])
  {
    EncodeAppend(items[..k], items[k]);
    assert items[..k + 1] == items[..k] + [items[k]];
  }

  /** Adds the next item of the message. */
  method Put(b: Buffer, item: Item, ghost items: seq<Item>, ghost k: nat)
    requires Written(b, items, k) && k < |items| && items[k] == item
    modifies b`offset, b.stream
    ensures Written(b, items, k + 1)
  {
    Fits(b, items, k);
    EncodeNext(items, k);
    hide Encode, TotalLength, ItemBytes;
    b.AddItem(item);
  }

  /** Two words in a row. */
  method PutWords(b: Buffer, x: int, y: int, ghost items: seq<Item>, ghost k: nat)
    requires Written(b, items, k) && k + 1 < |items| && items[k] == Word(x) && items[k + 1] == Word(y)
    modifies b`offset, b.stream
    ensures Written(b, items, k + 2)
  {
    hide *;
    Put(b, Word(x), items, k);
    Put(b, Word(y), items, k + 1);
  }

  /** Three texts in a row. */
  method PutTexts(b: Buffer, x: seq<byte>, y: seq<byte>, z: seq<byte>, ghost items: seq<Item>, ghost k: nat)
    requires Written(b, items, k) && k + 2 < |items|
    requires items[k] == Text(x) && items[k + 1] == Text(y) && items[k + 2] == Text(z)
    modifies b`offset, b.stream
    ensures Written(b, items, k + 3)
  {
    hide *;
    Put(b, Text(x), items, k);
    Put(b, Text(y), items, k + 1);
    Put(b, Text(z), items, k + 2);
  }

  lemma Started(b: Buffer, items: seq<Item>)
    requires b.Valid() && b.offset == 0 && AllSendable(items) && b.size == TotalLength(items)
    ensures Written(b, items, 0)
  {
    assert items[..0] == [] && b.stream[..0] == [];
  }

  lemma Full(b: Buffer, items: seq<Item>)
    requires Written(b, items, |items|)
    ensures Holds(b, items)
  {
    assert items[..|items|] == items;
    EncodeLength(items);
    assert b.stream[..b.offset] == b.stream[..];
  }

  method SerializeQuery(q: Query) returns (b: Buffer)
    requires AllSendable(QueryItems(q))
    ensures fresh(b) && fresh(b.stream) && Holds(b, QueryItems(q))
  {
    b := new Buffer(QuerySize(q));
    ghost var s := QueryItems(q);
    QuerySizeIsExact(q);
    Started(b, s);
    assert |s| == 5 && s[0] == Word(q.id) && s[1] == Word(q.priority) && s[2] == Word(q.pc) && s[3] == Word(q.action) && s[4] == Text(q.path);
    hide *;
    PutWords(b, q.id, q.priority, s, 0);
    PutWords(b, q.pc, q.action, s, 2);
    Put(b, Text(q.path), s, 4);
    Full(b, s);
  }

  lemma InstructionAt(i: Instruction)
    ensures var s := InstructionItems(i);
            && |s| == 11 && s[0] == Word(i.query) && s[1] == Word(i.code) && s[2] == Text(i.fileTag)
            && s[3] == Text(i.file) && s[4] == Text(i.tag) && s[5] == Word(i.size) && s[6] == Word(i.base)
            && s[7] == Text(i.content) && s[8] == Text(i.toFile) && s[9] == Text(i.toTag) && s[10] == Word(i.block)
  {
  }

  /** The fields up to the base address. */
  method PutInstructionHead(b: Buffer, i: Instruction)
    requires Written(b, InstructionItems(i), 0)
    modifies b`offset, b.stream
    ensures Written(b, InstructionItems(i), 7)
  {
    ghost var s := InstructionItems(i);
    InstructionAt(i);
    hide *;
    PutWords(b, i.query, i.code, s, 0);
    PutTexts(b, i.fileTag, i.file, i.tag, s, 2);
    PutWords(b, i.size, i.base, s, 5);
  }

  method SerializeInstruction(i: Instruction) returns (b: Buffer)
    requires AllSendable(InstructionItems(i))
    ensures fresh(b) && fresh(b.stream) && Holds(b, InstructionItems(i))
  {
    b := new Buffer(InstructionSize(i));
    ghost var s := InstructionItems(i);
    InstructionSizeIsExact(i);
    InstructionAt(i);
    Started(b, s);
    hide *;
    PutInstructionHead(b, i);
    PutTexts(b, i.content, i.toFile, i.toTag, s, 7);
    Put(b, Word(i.block), s, 10);
    Full(b, s);
  }

  method SerializeQueryReply(r: QueryReply) returns (b: Buffer)
    requires AllSendable(QueryReplyItems(r))
    ensures fresh(b) && fresh(b.stream) && Holds(b, QueryReplyItems(r))
  {
    b := new Buffer(QueryReplySize(r));
    ghost var s := QueryReplyItems(r);
    QueryReplySizeIsExact(r);
    Started(b, s);
    assert |s| == 5 && s[0] == Word(r.code) && s[1] == Word(r.pc) && s[2] == Text(r.message) && s[3] == Text(r.file) && s[4] == Text(r.tag);
    hide *;
    PutWords(b, r.code, r.pc, s, 0);
    PutTexts(b, r.message, r.file, r.tag, s, 2);
    Full(b, s);
  }

  method SerializeStorageReply(r: StorageReply) returns (b: Buffer)
    requires AllSendable(StorageReplyItems(r))
    ensures fresh(b) && fresh(b.stream) && Holds(b, StorageReplyItems(r))
  {
    b := new Buffer(StorageReplySize(r));
    ghost var s := StorageReplyItems(r);
    StorageReplySizeIsExact(r);
    Started(b, s);
    assert |s| == 3 && s[0] == Word(r.code) && s[1] == Text(r.content) && s[2] == Text(r.error);
    hide *;
    Put(b, Word(r.code), s, 0);
    Put(b, Text(r.content), s, 1);
    Put(b, Text(r.error), s, 2);
    Full(b, s);
  }

  // ------------------------------------------------------------------- reading

  /** The items a message of these kinds holds, and what follows it. */
  ghost predicate Reads(kinds: seq<Kind>, bytes: seq<byte>, items: seq<Item>, left: seq<byte>) {
    Decode(kinds, bytes) == Some((items, left))
  }

  /** Reading what was written gives it back and leaves nothing. */
  lemma ReadsBack(bytes: seq<byte>, written: seq<Item>, items: seq<Item>, left: seq<byte>)
    requires AllSendable(written) && bytes == Encode(written) && Reads(Kinds(written), bytes, items, left)
    ensures items == written && left == []
  {
    DecodeEncode(written, []);
    assert bytes + [] == bytes;
  }

  /** The items in `got` were taken; the rest of the message is still to be read. */
  ghost predicate Reading(b: Buffer, kinds: seq<Kind>, bytes: seq<byte>, got: seq<Item>)
    reads b, b.stream
  {
    && b.Valid() && b.stream[..] == bytes && |got| <= |kinds|
    && Decode(kinds[|got|..], b.Left()).Some?
    && var (more, left) := Decode(kinds[|got|..], b.Left()).value;
       Reads(kinds, bytes, got + more, left)
  }

  function Snoc(items: seq<Item>, item: Item): seq<Item> {
    items + [item]
  }

  /** Takes the next item of the message. */
  method Get(b: Buffer, kind: Kind, ghost kinds: seq<Kind>, ghost bytes: seq<byte>, ghost got: seq<Item>)
    returns (item: Item, ghost more: seq<Item>)
    requires Reading(b, kinds, bytes, got) && |got| < |kinds| && kinds[|got|] == kind
    modifies b`offset
    ensures KindOf(item) == kind && more == Snoc(got, item) && |more| == |got| + 1 && Reading(b, kinds, bytes, more)
  {
    ghost var rest := kinds[|got|..];
    assert rest[0] == kind && rest[1..] == kinds[|got| + 1..];
    item := b.TakeItem(kind);
    more := got + [item];
    ghost var after := Decode(rest[1..], b.Left()).value.0;
    assert got + ([item] + after) == more + after;
    hide DecodeItem, Reads;
  }

  lemma Opened(b: Buffer, kinds: seq<Kind>)
    requires b.Valid() && b.Left() == b.stream[..] && Decode(kinds, b.stream[..]).Some?
    ensures Reading(b, kinds, b.stream[..], [])
  {
    assert kinds[0..] == kinds;
    var more := Decode(kinds, b.stream[..]).value.0;
    assert [] + more == more;
  }

  lemma Finished(b: Buffer, kinds: seq<Kind>, bytes: seq<byte>, got: seq<Item>)
    requires Reading(b, kinds, bytes, got) && |got| == |kinds|
    ensures b.Valid() && b.stream[..] == bytes && Reads(kinds, bytes, got, b.Left())
  {
    assert kinds[|got|..] == [];
    assert got + [] == got;
  }

  lemma QueryKindsAt()
    ensures var k := QueryKinds(); |k| == 5 && k[0] == k[1] == k[2] == k[3] == AWord && k[4] == AText
  {
  }

  lemma QueryReplyKindsAt()
    ensures var k := QueryReplyKinds(); |k| == 5 && k[0] == k[1] == AWord && k[2] == k[3] == k[4] == AText
  {
  }

  lemma StorageReplyKindsAt()
    ensures var k := StorageReplyKinds(); |k| == 3 && k[0] == AWord && k[1] == k[2] == AText
  {
  }

  lemma InstructionKindsAt()
    ensures var k := InstructionKinds();
            && |k| == 11 && k[0] == k[1] == AWord && k[2] == k[3] == k[4] == AText
            && k[5] == k[6] == AWord && k[7] == k[8] == k[9] == AText && k[10] == AWord
  {
  }

  method DeserializeQuery(b: Buffer) returns (q: Query)
    requires b.Valid() && Decode(QueryKinds(), b.stream[..]).Some?
    modifies b`offset
    ensures b.Valid() && Reads(QueryKinds(), b.stream[..], QueryItems(q), b.Left())
  {
    b.Rewind();
    Opened(b, QueryKinds());
    QueryKindsAt();
    ghost var k, s, got: seq<Item> := QueryKinds(), b.stream[..], [];
    hide *;
    var id, priority, pc, action, path: Item;
    id, got := Get(b, AWord, k, s, got);
    priority, got := Get(b, AWord, k, s, got);
    pc, got := Get(b, AWord, k, s, got);
    action, got := Get(b, AWord, k, s, got);
    path, got := Get(b, AText, k, s, got);
    q := Query(id.value, priority.value, pc.value, action.value, path.bytes);
    Finished(b, k, s, got);
    QueryFrom(id, priority, pc, action, path);
  }

  lemma QueryFrom(id: Item, priority: Item, pc: Item, action: Item, path: Item)
    requires id.Word? && priority.Word? && pc.Word? && action.Word? && path.Text?
    ensures Snoc(Snoc(Snoc(Snoc(Snoc([], id), priority), pc), action), path) ==
            QueryItems(Query(id.value, priority.value, pc.value, action.value, path.bytes))
  {
  }

  method DeserializeQueryReply(b: Buffer) returns (r: QueryReply)
    requires b.Valid() && Decode(QueryReplyKinds(), b.stream[..]).Some?
    modifies b`offset
    ensures b.Valid() && Reads(QueryReplyKinds(), b.stream[..], QueryReplyItems(r), b.Left())
  {
    b.Rewind();
    Opened(b, QueryReplyKinds());
    QueryReplyKindsAt();
    ghost var k, s, got: seq<Item> := QueryReplyKinds(), b.stream[..], [];
    hide *;
    var code, pc, message, file, tag: Item;
    code, got := Get(b, AWord, k, s, got);
    pc, got := Get(b, AWord, k, s, got);
    message, got := Get(b, AText, k, s, got);
    file, got := Get(b, AText, k, s, got);
    tag, got := Get(b, AText, k, s, got);
    r := QueryReply(code.value, pc.value, message.bytes, file.bytes, tag.bytes);
    Finished(b, k, s, got);
    QueryReplyFrom(code, pc, message, file, tag);
  }

  lemma QueryReplyFrom(code: Item, pc: Item, message: Item, file: Item, tag: Item)
    requires code.Word? && pc.Word? && message.Text? && file.Text? && tag.Text?
    ensures Snoc(Snoc(Snoc(Snoc(Snoc([], code), pc), message), file), tag) ==
            QueryReplyItems(QueryReply(code.value, pc.value, message.bytes, file.bytes, tag.bytes))
  {
  }

  method DeserializeStorageReply(b: Buffer) returns (r: StorageReply)
    requires b.Valid() && Decode(StorageReplyKinds(), b.stream[..]).Some?
    modifies b`offset
    ensures b.Valid() && Reads(StorageReplyKinds(), b.stream[..], StorageReplyItems(r), b.Left())
  {
    b.Rewind();
    Opened(b, StorageReplyKinds());
    StorageReplyKindsAt();
    ghost var k, s, got: seq<Item> := StorageReplyKinds(), b.stream[..], [];
    hide *;
    var code, content, error: Item;
    code, got := Get(b, AWord, k, s, got);
    content, got := Get(b, AText, k, s, got);
    error, got := Get(b, AText, k, s, got);
    r := StorageReply(code.value, content.bytes, error.bytes);
    Finished(b, k, s, got);
    StorageReplyFrom(code, content, error);
  }

  lemma StorageReplyFrom(code: Item, content: Item, error: Item)
    requires code.Word? && content.Text? && error.Text?
    ensures Snoc(Snoc(Snoc([], code), content), error) == StorageReplyItems(StorageReply(code.value, content.bytes, error.bytes))
  {
  }

  /** The fields up to the tag. */
  method GetInstructionHead(b: Buffer, ghost s: seq<byte>)
    returns (query: Item, code: Item, fileTag: Item, file: Item, tag: Item, ghost got: seq<Item>)
    requires Reading(b, InstructionKinds(), s, [])
    modifies b`offset
    ensures query.Word? && code.Word? && fileTag.Text? && file.Text? && tag.Text?
    ensures got == Snoc(Snoc(Snoc(Snoc(Snoc([], query), code), fileTag), file), tag) && |got| == 5
    ensures Reading(b, InstructionKinds(), s, got)
  {
    InstructionKindsAt();
    hide Snoc, Reading, InstructionKinds;
    ghost var k := InstructionKinds();
    got := [];
    query, got := Get(b, AWord, k, s, got);
    code, got := Get(b, AWord, k, s, got);
    fileTag, got := Get(b, AText, k, s, got);
    file, got := Get(b, AText, k, s, got);
    tag, got := Get(b, AText, k, s, got);
  }

  method DeserializeInstruction(b: Buffer) returns (i: Instruction)
    requires b.Valid() && Decode(InstructionKinds(), b.stream[..]).Some?
    modifies b`offset
    ensures b.Valid() && Reads(InstructionKinds(), b.stream[..], InstructionItems(i), b.Left())
  {
    b.Rewind();
    Opened(b, InstructionKinds());
    InstructionKindsAt();
    ghost var k, s, got := InstructionKinds(), b.stream[..], [];
    hide *;
    var query, code, fileTag, file, tag, size, base, content, toFile, toTag, block: Item;
    query, code, fileTag, file, tag, got := GetInstructionHead(b, s);
    size, got := Get(b, AWord, k, s, got);
    base, got := Get(b, AWord, k, s, got);
    content, got := Get(b, AText, k, s, got);
    toFile, got := Get(b, AText, k, s, got);
    toTag, got := Get(b, AText, k, s, got);
    block, got := Get(b, AWord, k, s, got);
    i := Instruction(query.value, code.value, fileTag.bytes, file.bytes, tag.bytes, size.value, base.value,
                     content.bytes, toFile.bytes, toTag.bytes, block.value);
    Finished(b, k, s, got);
    InstructionFrom(query, code, fileTag, file, tag, size, base, content, toFile, toTag, block);
  }

  lemma InstructionFrom(query: Item, code: Item, fileTag: Item, file: Item, tag: Item, size: Item, base: Item,
                        content: Item, toFile: Item, toTag: Item, block: Item)
    requires query.Word? && code.Word? && fileTag.Text? && file.Text? && tag.Text? && size.Word? && base.Word?
    requires content.Text? && toFile.Text? && toTag.Text? && block.Word?
    ensures Snoc(Snoc(Snoc(Snoc(Snoc(Snoc(Snoc(Snoc(Snoc(Snoc(Snoc([], query), code), fileTag), file), tag), size), base), content), toFile), toTag), block) ==
            InstructionItems(Instruction(query.value, code.value, fileTag.bytes, file.bytes, tag.bytes, size.value,
                                         base.value, content.bytes, toFile.bytes, toTag.bytes, block.value))
  {
  }

  // --------------------------------------------------------------- round trips

  /** What is read from the bytes of a query is that query, and every byte is consumed. */
  lemma QueryReadsBack(sent: Query, got: Query, left: seq<byte>)
    requires AllSendable(QueryItems(sent)) && Reads(QueryKinds(), Encode(QueryItems(sent)), QueryItems(got), left)
    ensures got == sent && left == []
  {
    SameKinds(QueryItems(sent), QueryKinds());
    ReadsBack(Encode(QueryItems(sent)), QueryItems(sent), QueryItems(got), left);
    var x, y := QueryItems(sent), QueryItems(got);
    assert x[0] == y[0] && x[1] == y[1] && x[2] == y[2] && x[3] == y[3] && x[4] == y[4];
  }

  lemma InstructionReadsBack(sent: Instruction, got: Instruction, left: seq<byte>)
    requires AllSendable(InstructionItems(sent))
    requires Reads(InstructionKinds(), Encode(InstructionItems(sent)), InstructionItems(got), left)
    ensures got == sent && left == []
  {
    SameKinds(InstructionItems(sent), InstructionKinds());
    ReadsBack(Encode(InstructionItems(sent)), InstructionItems(sent), InstructionItems(got), left);
    InstructionAt(sent);
    InstructionAt(got);
    hide InstructionItems;
  }

  lemma QueryReplyReadsBack(sent: QueryReply, got: QueryReply, left: seq<byte>)
    requires AllSendable(QueryReplyItems(sent))
    requires Reads(QueryReplyKinds(), Encode(QueryReplyItems(sent)), QueryReplyItems(got), left)
    ensures got == sent && left == []
  {
    SameKinds(QueryReplyItems(sent), QueryReplyKinds());
    ReadsBack(Encode(QueryReplyItems(sent)), QueryReplyItems(sent), QueryReplyItems(got), left);
    var x, y := QueryReplyItems(sent), QueryReplyItems(got);
    assert x[0] == y[0] && x[1] == y[1] && x[2] == y[2] && x[3] == y[3] && x[4] == y[4];
  }

  lemma StorageReplyReadsBack(sent: StorageReply, got: StorageReply, left: seq<byte>)
    requires AllSendable(StorageReplyItems(sent))
    requires Reads(StorageReplyKinds(), Encode(StorageReplyItems(sent)), StorageReplyItems(got), left)
    ensures got == sent && left == []
  {
    SameKinds(StorageReplyItems(sent), StorageReplyKinds());
    ReadsBack(Encode(StorageReplyItems(sent)), StorageReplyItems(sent), StorageReplyItems(got), left);
    var x, y := StorageReplyItems(sent), StorageReplyItems(got);
    assert x[0] == y[0] && x[1] == y[1] && x[2] == y[2];
  }

  lemma Readable(items: seq<Item>, kinds: seq<Kind>)
    requires AllSendable(items) && Kinds(items) == kinds
    ensures Decode(kinds, Encode(items)).Some?
  {
    DecodeEncode(items, []);
    assert Encode(items) + [] == Encode(items);
  }

  /** An instruction sent and received. */
  method PassInstruction(i: Instruction) returns (r: Instruction)
    requires AllSendable(InstructionItems(i))
    ensures r == i
  {
    var b := SerializeInstruction(i);
    SameKinds(InstructionItems(i), InstructionKinds());
    hide Decode, Encode, InstructionItems, InstructionKinds, Kinds;
    Readable(InstructionItems(i), InstructionKinds());
    r := DeserializeInstruction(b);
    InstructionReadsBack(i, r, b.Left());
  }

  /** A query sent and received. */
  method PassQuery(q: Query) returns (r: Query)
    requires AllSendable(QueryItems(q))
    ensures r == q
  {
    var b := SerializeQuery(q);
    SameKinds(QueryItems(q), QueryKinds());
    hide Decode, Encode, QueryItems, QueryKinds, Kinds;
    Readable(QueryItems(q), QueryKinds());
    r := DeserializeQuery(b);
    QueryReadsBack(q, r, b.Left());
  }

  /** An answer about a query sent and received. */
  method PassQueryReply(a: QueryReply) returns (r: QueryReply)
    requires AllSendable(QueryReplyItems(a))
    ensures r == a
  {
    var b := SerializeQueryReply(a);
    SameKinds(QueryReplyItems(a), QueryReplyKinds());
    hide Decode, Encode, QueryReplyItems, QueryReplyKinds, Kinds;
    Readable(QueryReplyItems(a), QueryReplyKinds());
    r := DeserializeQueryReply(b);
    QueryReplyReadsBack(a, r, b.Left());
  }

  /** A storage answer sent and received. */
  method PassStorageReply(a: StorageReply) returns (r: StorageReply)
    requires AllSendable(StorageReplyItems(a))
    ensures r == a
  {
    var b := SerializeStorageReply(a);
    SameKinds(StorageReplyItems(a), StorageReplyKinds());
    hide Decode, Encode, StorageReplyItems, StorageReplyKinds, Kinds;
    Readable(StorageReplyItems(a), StorageReplyKinds());
    r := DeserializeStorageReply(b);
    StorageReplyReadsBack(a, r, b.Left());
  }
}
