/** How one sorted run is written: a header, checksummed blocks of records, and a
    counted footer, each checksum covering the one before. */
module RunCodec {
  import opened Texts
  import opened Records
  import opened Outcomes
  import opened Varints
  import Seqs

  const MAGIC: Text := [69, 81, 77, 82, 82, 85, 78, 2]
  const BLOCK_TAG: Byte := 1
  const FOOTER_TAG: Byte := 0
  const MAX_RECORD := 0x400_0000
  const BLOCK_BYTES := 0x1_0000
  const MAX_BLOCK := BLOCK_BYTES + MAX_RECORD + 3 * MAX_LEN

  /** A checksum function: any function to eight bytes. */
  type Hash = Text -> Text

  ghost predicate IsDigest(h: Hash)
  {
    forall x :: |h(x)| == 8
  }

  function RecordLen(r: Record): nat { |r.primary| + |r.secondary| + |r.value| }

  /** appendIntermediateRecord. */
  function EncodeRecord(r: Record): Text
  {
    Uvarint(|r.primary|) + (Uvarint(|r.secondary|) + (Uvarint(|r.value|) + (r.primary + (r.secondary + r.value))))
  }

  function Payload(records: seq<Record>): Text
  {
    if records == [] then [] else EncodeRecord(records[0]) + Payload(records[1..])
  }

  function Head(count: nat, length: nat): Text { [BLOCK_TAG] + (Uvarint(count) + Uvarint(length)) }

  function Footer(count: nat): Text { [FOOTER_TAG] + Uvarint(count) }

  /** What a block's checksum covers, besides the one before. */
  function Covered(records: seq<Record>): Text
  {
    Head(|records|, |Payload(records)|) + Payload(records)
  }

  /** chainSum. */
  function Chain(h: Hash, prev: Text, part: Text): Text { h(prev + part) }

  function Block(h: Hash, prev: Text, records: seq<Record>): Text
  {
    Covered(records) + Chain(h, prev, Covered(records))
  }

  function Blocks(h: Hash, prev: Text, blocks: seq<seq<Record>>): Text
    decreases |blocks|
  {
    if blocks == [] then []
    else Block(h, prev, blocks[0]) + Blocks(h, Chain(h, prev, Covered(blocks[0])), blocks[1..])
  }

  /** The checksum after the blocks. */
  function After(h: Hash, prev: Text, blocks: seq<seq<Record>>): Text
    decreases |blocks|
  {
    if blocks == [] then prev else After(h, Chain(h, prev, Covered(blocks[0])), blocks[1..])
  }

  function Ending(h: Hash, prev: Text, total: nat): Text
  {
    Footer(total) + Chain(h, prev, Footer(total))
  }

  /** A whole run, after its header. */
  function Body(h: Hash, prev: Text, blocks: seq<seq<Record>>, total: nat): Text
  {
    Blocks(h, prev, blocks) + Ending(h, After(h, prev, blocks), total)
  }

  lemma {:induction false} BlocksSnoc(h: Hash, prev: Text, blocks: seq<seq<Record>>, last: seq<Record>)
    ensures Blocks(h, prev, blocks + [last]) == Blocks(h, prev, blocks) + Block(h, After(h, prev, blocks), last)
    ensures After(h, prev, blocks + [last]) == Chain(h, After(h, prev, blocks), Covered(last))
    decreases |blocks|
  {
    if blocks == [] {
      assert [last][1..] == [] && blocks + [last] == [last];
      assert Block(h, prev, last) + [] == Block(h, prev, last);
    } else {
      var next := Chain(h, prev, Covered(blocks[0]));
      BlocksSnoc(h, next, blocks[1..], last);
      assert (blocks + [last])[1..] == blocks[1..] + [last];
      Seqs.Assoc(Block(h, prev, blocks[0]), Blocks(h, next, blocks[1..]), Block(h, After(h, prev, blocks), last));
    }
  }

  lemma {:induction false} PayloadSnoc(records: seq<Record>, last: Record)
    ensures Payload(records + [last]) == Payload(records) + EncodeRecord(last)
    decreases |records|
  {
    if records == [] {
      assert [last][1..] == [] && records + [last] == [last];
      assert EncodeRecord(last) + [] == EncodeRecord(last);
    } else {
      PayloadSnoc(records[1..], last);
      assert (records + [last])[1..] == records[1..] + [last];
      Seqs.Assoc(EncodeRecord(records[0]), Payload(records[1..]), EncodeRecord(last));
    }
  }

  /** A record takes at least three bytes, and not many more than its fields. */
  lemma RecordBytes(r: Record)
    requires RecordLen(r) <= MAX_RECORD
    ensures RecordLen(r) + 3 <= |EncodeRecord(r)| <= RecordLen(r) + 3 * MAX_LEN
  {
    UvarintRoundTrip(|r.primary|, []);
    UvarintRoundTrip(|r.secondary|, []);
    UvarintRoundTrip(|r.value|, []);
  }

  predicate Small(records: seq<Record>)
  {
    forall i | 0 <= i < |records| :: RecordLen(records[i]) <= MAX_RECORD
  }

  lemma {:induction false} PayloadBytes(records: seq<Record>)
    requires Small(records)
    ensures 3 * |records| <= |Payload(records)|
    decreases |records|
  {
    if records != [] {
      RecordBytes(records[0]);
      PayloadBytes(records[1..]);
    }
  }

  /** A block as the writer closes it: at the first record that fills it. */
  predicate Sized(block: seq<Record>)
  {
    block != [] && Small(block) && |Payload(block[..|block| - 1])| < BLOCK_BYTES
  }

  /** No block the writer emits breaks the reader's limits. */
  lemma BlockFits(block: seq<Record>)
    requires Sized(block)
    ensures 0 < |block| && |Payload(block)| <= MAX_BLOCK && |block| <= |Payload(block)| / 3
  {
    var front, last := block[..|block| - 1], block[|block| - 1];
    assert block == front + [last];
    PayloadSnoc(front, last);
    RecordBytes(last);
    PayloadBytes(block);
  }

  predicate AllSized(blocks: seq<seq<Record>>)
  {
    forall i | 0 <= i < |blocks| :: Sized(blocks[i])
  }

  /** Every block but the last is full. */
  predicate Filled(blocks: seq<seq<Record>>)
  {
    forall i | 0 <= i < |blocks| - 1 :: |Payload(blocks[i])| >= BLOCK_BYTES
  }

  /** blocks have been written, all of them full. */
  ghost predicate Wrote(h: Hash, blocks: seq<seq<Record>>, out: Text, prev: Text)
  {
    && AllSized(blocks) && (forall k | 0 <= k < |blocks| :: |Payload(blocks[k])| >= BLOCK_BYTES)
    && out == Blocks(h, h(MAGIC), blocks) && prev == After(h, h(MAGIC), blocks)
  }

  /** pending is waiting to be written, not yet a full block. */
  ghost predicate Waits(pending: seq<Record>, payload: Text)
  {
    Small(pending) && payload == Payload(pending) && |payload| < BLOCK_BYTES
  }

  /** One record more may fill a block, but never by more than itself. */
  lemma Appended(pending: seq<Record>, payload: Text, record: Record)
    requires Waits(pending, payload) && RecordLen(record) <= MAX_RECORD
    ensures payload + EncodeRecord(record) == Payload(pending + [record]) && Sized(pending + [record])
  {
    PayloadSnoc(pending, record);
    assert (pending + [record])[..|pending|] == pending;
  }

  /** The variables that encodeIntermediateRun and its flush share. blocks and
      pending are what has been written and what waits. */
  class Encoder {
    const h: Hash
    var out: Text
    var prev: Text
    var payload: Text
    var count: nat
    ghost var blocks: seq<seq<Record>>
    ghost var pending: seq<Record>

    ghost predicate Valid()
      reads this
    {
      Wrote(h, blocks, out, prev) && Waits(pending, payload) && count == |pending|
    }

    /** The records added so far. */
    ghost function Added(): seq<Record>
      reads this
    {
      Flatten(blocks) + pending
    }

    constructor (h: Hash)
      ensures this.h == h && Valid() && Added() == []
    {
      this.h, out, prev, payload, count := h, [], h(MAGIC), [], 0;
      blocks, pending := [], [];
    }

    method Flush()
      requires Sized(pending) && AllSized(blocks) && payload == Payload(pending) && count == |pending|
      requires out == Blocks(h, h(MAGIC), blocks) && prev == After(h, h(MAGIC), blocks)
      modifies this
      ensures blocks == old(blocks) + [old(pending)] && AllSized(blocks) &&
              Flatten(blocks) == Flatten(old(blocks)) + old(pending)
      ensures out == Blocks(h, h(MAGIC), blocks) && prev == After(h, h(MAGIC), blocks)
      ensures pending == [] && payload == [] && count == 0
    {
      Closes(h, blocks, pending);
      var covered := [BLOCK_TAG] + (Uvarint(count) + Uvarint(|payload|)) + payload;
      assert covered == Covered(pending);
      var sum := h(prev + covered);
      assert covered + sum == Block(h, prev, pending);
      out, prev := out + (covered + sum), sum;
      payload, count := [], 0;
      blocks, pending := blocks + [pending], [];
    }

    /** Appends a record, and closes the block it fills. */
    method Add(record: Record)
      requires Valid() && RecordLen(record) <= MAX_RECORD
      modifies this
      ensures Valid() && Added() == old(Added()) + [record]
    {
      Appended(pending, payload, record);
      Seqs.Assoc(Flatten(blocks), pending, [record]);
      payload, count := payload + EncodeRecord(record), count + 1;
      pending := pending + [record];
      if |payload| >= BLOCK_BYTES {
        Flush();
      }
    }

    /** Closes the last block and adds the footer. */
    method Finish(total: nat) returns (bytes: Text)
      requires Valid()
      modifies this
      ensures AllSized(blocks) && Filled(blocks) && Flatten(blocks) == old(Added())
      ensures bytes == MAGIC + Body(h, h(MAGIC), blocks, total)
    {
      if count > 0 {
        PartBlock(pending, payload);
        Flush();
      }
      var footer := [FOOTER_TAG] + Uvarint(total);
      bytes := MAGIC + (out + (footer + h(prev + footer)));
    }
  }

  /** Adds records in order, up to one over the limit. */
  method AddAll(enc: Encoder, records: seq<Record>) returns (ok: bool)
    requires enc.Valid() && enc.Added() == []
    modifies enc
    ensures ok <==> Small(records)
    ensures enc.Valid() && (ok ==> enc.Added() == records)
  {
    for i := 0 to |records|
      invariant enc.Valid() && enc.Added() == records[..i] && Small(records[..i])
    {
      if RecordLen(records[i]) > MAX_RECORD {
        return false;
      }
      assert records[..i + 1] == records[..i] + [records[i]];
      enc.Add(records[i]);
    }
    assert records[..|records|] == records;
    ok := true;
  }

  /** encodeIntermediateRun: refuses a record over the limit, and otherwise writes
      the records in order. */
  method Encode(h: Hash, records: seq<Record>) returns (r: Outcome<Text>, ghost blocks: seq<seq<Record>>)
    ensures r.Ok? <==> Small(records)
    ensures r.Ok? ==> Flatten(blocks) == records && AllSized(blocks) && Filled(blocks)
    ensures r.Ok? ==> r.value == MAGIC + Body(h, h(MAGIC), blocks, |records|)
  {
    var enc := new Encoder(h);
    var ok := AddAll(enc, records);
    if !ok {
      return Failed, [];
    }
    var bytes := enc.Finish(|records|);
    blocks := enc.blocks;
    r := Ok(bytes);
  }

  /** Closing a block. */
  lemma Closes(h: Hash, blocks: seq<seq<Record>>, block: seq<Record>)
    requires AllSized(blocks) && Sized(block)
    ensures AllSized(blocks + [block]) && Flatten(blocks + [block]) == Flatten(blocks) + block
    ensures Blocks(h, h(MAGIC), blocks + [block]) == Blocks(h, h(MAGIC), blocks) +
            Block(h, After(h, h(MAGIC), blocks), block)
    ensures After(h, h(MAGIC), blocks + [block]) == Chain(h, After(h, h(MAGIC), blocks), Covered(block))
  {
    FlattenOne(blocks, block);
    BlocksSnoc(h, h(MAGIC), blocks, block);
  }

  lemma FrontFits(front: seq<Record>, last: Record, whole: Text, part: Text, bytes: nat)
    requires whole == Payload(front + [last]) && part == Payload(front) && |whole| < bytes
    ensures |part| < bytes
  {
    PayloadSnoc(front, last);
  }

  lemma PartBlock(block: seq<Record>, whole: Text)
    requires block != [] && Small(block) && whole == Payload(block) && |whole| < BLOCK_BYTES
    ensures Sized(block)
  {
    var front, last := block[..|block| - 1], block[|block| - 1];
    var part := Payload(front);
    assert |part| < BLOCK_BYTES by {
      assert block == front + [last];
      FrontFits(front, last, whole, part, BLOCK_BYTES);
    }
  }
}
