/** Reading back what was written. */
module RunRoundTrip {
  import opened Widths
  import Seqs
  import opened Texts
  import opened Records
  import opened Outcomes
  import opened Varints
  import opened RunCodec
  import opened RunReader

  lemma TakeReads(n: nat, after: Text, clean: bool)
    requires n < TWO_64
    ensures TakeUvarint(Uvarint(n) + after, clean) == Got(Prefix(n, Uvarint(n), after))
  {
    UvarintRoundTrip(n, after);
    var b, k := Uvarint(n) + after, |Uvarint(n)|;
    assert b[..k] == Uvarint(n) && b[k..] == after;
  }

  lemma LengthReads(n: nat, after: Text, more: nat)
    requires n < TWO_64 && DecodeLengths(after, more).Ok?
    ensures DecodeLengths(Uvarint(n) + after, more + 1) ==
            Ok(([n] + DecodeLengths(after, more).value.0, DecodeLengths(after, more).value.1))
  {
    UvarintRoundTrip(n, after);
    var b := Uvarint(n) + after;
    assert b[|Uvarint(n)|..] == after;
  }

  lemma FieldReads(field: Text, after: Text, lengths: seq<nat>)
    requires DecodeFields(after, lengths).Ok?
    ensures DecodeFields(field + after, [|field|] + lengths) ==
            Ok(([field] + DecodeFields(after, lengths).value.0, DecodeFields(after, lengths).value.1))
  {
    var b := field + after;
    assert b[|field|..] == after && b[..|field|] == field && ([|field|] + lengths)[1..] == lengths;
  }

  lemma RecordReads(r: Record, after: Text)
    requires RecordLen(r) <= MAX_RECORD
    ensures DecodeRecord(EncodeRecord(r) + after) == Ok((r, after))
  {
    LengthsRead(r, after);
    FieldsRead(r, after);
  }

  function Fields(r: Record): Text { r.primary + (r.secondary + r.value) }

  lemma LengthsRead(r: Record, after: Text)
    requires RecordLen(r) <= MAX_RECORD
    ensures DecodeLengths(EncodeRecord(r) + after, 3) ==
            Ok(([|r.primary|, |r.secondary|, |r.value|], Fields(r) + after))
  {
    var x, y, z := Uvarint(|r.primary|), Uvarint(|r.secondary|), Uvarint(|r.value|);
    var rest := Fields(r) + after;
    Seqs.Assoc(x, y + (z + Fields(r)), after);
    Seqs.Assoc(y, z + Fields(r), after);
    Seqs.Assoc(z, Fields(r), after);
    DecodeThree(|r.primary|, |r.secondary|, |r.value|, rest);
  }

  lemma DecodeThree(a: nat, b: nat, c: nat, rest: Text)
    requires a < TWO_64 && b < TWO_64 && c < TWO_64
    ensures DecodeLengths(Uvarint(a) + (Uvarint(b) + (Uvarint(c) + rest)), 3) == Ok(([a, b, c], rest))
  {
    var z := Uvarint(c) + rest;
    var y := Uvarint(b) + z;
    LengthReads(c, rest, 0);
    assert [c] + [] == [c];
    assert DecodeLengths(z, 1) == Ok(([c], rest));
    LengthReads(b, z, 1);
    assert [b] + [c] == [b, c];
    assert DecodeLengths(y, 2) == Ok(([b, c], rest));
    LengthReads(a, y, 2);
    assert [a] + [b, c] == [a, b, c];
  }

  lemma FieldsRead(r: Record, after: Text)
    ensures DecodeFields(Fields(r) + after, [|r.primary|, |r.secondary|, |r.value|]) ==
            Ok(([r.primary, r.secondary, r.value], after))
  {
    Seqs.Assoc(r.primary, r.secondary + r.value, after);
    Seqs.Assoc(r.secondary, r.value, after);
    SplitThree(r.primary, r.secondary, r.value, after);
  }

  lemma SplitThree(a: Text, b: Text, c: Text, after: Text)
    ensures DecodeFields(a + (b + (c + after)), [|a|, |b|, |c|]) == Ok(([a, b, c], after))
  {
    var z := c + after;
    var y := b + z;
    FieldReads(c, after, []);
    assert [|c|] + [] == [|c|] && [c] + [] == [c];
    assert DecodeFields(z, [|c|]) == Ok(([c], after));
    FieldReads(b, z, [|c|]);
    assert [|b|] + [|c|] == [|b|, |c|] && [b] + [c] == [b, c];
    assert DecodeFields(y, [|b|, |c|]) == Ok(([b, c], after));
    FieldReads(a, y, [|b|, |c|]);
    assert [|a|] + [|b|, |c|] == [|a|, |b|, |c|] && [a] + [b, c] == [a, b, c];
  }

  /** The reader once the block it is in has been served. */
  function Drained(r: Reader): Reader
  {
    r.(block := [], left := 0, served := r.served + r.left)
  }

  function Served(r: Reader, after: Text): Reader
    requires r.left > 0
  {
    r.(block := after, left := r.left - 1, served := r.served + 1)
  }

  lemma ServesFirst(r: Reader, records: seq<Record>)
    requires records != [] && r.block == Payload(records) && r.left == |records| && Small(records)
    ensures Serve(r) == Got((records[0], Served(r, Payload(records[1..]))))
  {
    var after := Payload(records[1..]);
    RecordReads(records[0], after);
    assert r.block == EncodeRecord(records[0]) + after;
    if r.left == 1 {
      assert records[1..] == [];
    }
  }

  /** A block serves its records, and nothing else. */
  lemma {:induction false} BlockServes(h: Hash, r: Reader, records: seq<Record>)
    requires r.block == Payload(records) && r.left == |records| && Small(records)
    ensures ReadAll(h, r) == PrependAll(records, ReadAll(h, Drained(r)))
    decreases |records|
  {
    if records == [] {
      assert r == Drained(r);
      PrependNone(ReadAll(h, r));
    } else {
      var next := Served(r, Payload(records[1..]));
      ServesFirst(r, records);
      BlockServes(h, next, records[1..]);
      assert Drained(next) == Drained(r);
      PrependFirst(records, ReadAll(h, Drained(r)));
    }
  }

  lemma PrependFirst(records: seq<Record>, rest: Reading<seq<Record>>)
    requires records != []
    ensures Prepend(records[0], PrependAll(records[1..], rest)) == PrependAll(records, rest)
  {
    if rest.Got? {
      assert [records[0]] + (records[1..] + rest.value) == records + rest.value;
    }
  }

  lemma PayloadReads(h: Hash, r: Reader, block: seq<Record>, after: Text)
    requires IsDigest(h) && Sized(block)
    ensures var payload, sum := Payload(block), Chain(h, r.prev, Covered(block));
            ReadPayload(h, r.(rest := payload + (sum + after)), |block|, |payload|, Head(|block|, |payload|))
            == Got(r.(rest := after, prev := sum, block := payload, left := |block|))
  {
    BlockFits(block);
    var payload, sum := Payload(block), Chain(h, r.prev, Covered(block));
    var rest := payload + (sum + after);
    assert rest[|payload|..] == sum + after && rest[..|payload|] == payload;
    assert |sum| == 8 && (sum + after)[..8] == sum && (sum + after)[8..] == after;
  }

  /** How a block's bytes lie. */
  lemma BlockLies(h: Hash, prev: Text, block: seq<Record>, after: Text)
    ensures var payload, sum := Payload(block), Chain(h, prev, Covered(block));
            Block(h, prev, block) + after == [BLOCK_TAG] +
              (Uvarint(|block|) + (Uvarint(|payload|) + (payload + (sum + after))))
  {
    var payload, sum := Payload(block), Chain(h, prev, Covered(block));
    var x, y := Uvarint(|block|), Uvarint(|payload|);
    Seqs.Assoc(Head(|block|, |payload|) + payload, sum, after);
    Seqs.Assoc(Head(|block|, |payload|), payload, sum + after);
    Seqs.Assoc([BLOCK_TAG], x + y, payload + (sum + after));
    Seqs.Assoc(x, y, payload + (sum + after));
  }

  /** A frame the writer emits is one the reader takes. */
  lemma BlockReads(h: Hash, r: Reader, block: seq<Record>, after: Text)
    requires IsDigest(h) && Sized(block) && r.rest == Block(h, r.prev, block) + after
    ensures ReadFrame(h, r) ==
            Got(r.(rest := after, prev := Chain(h, r.prev, Covered(block)), block := Payload(block), left := |block|))
  {
    BlockFits(block);
    var payload, sum := Payload(block), Chain(h, r.prev, Covered(block));
    var c := payload + (sum + after);
    var b := Uvarint(|payload|) + c;
    BlockLies(h, r.prev, block, after);
    assert r.rest[1..] == Uvarint(|block|) + b;
    TakeReads(|block|, b, r.clean);
    TakeReads(|payload|, c, r.clean);
    PayloadReads(h, r, block, after);
  }

  lemma FooterReads(h: Hash, r: Reader, total: nat)
    requires IsDigest(h) && total < TWO_64 && r.rest == Ending(h, r.prev, total)
    requires r.clean && r.served == total && (r.expected < 0 || r.expected == total)
    ensures ReadFrame(h, r) == Got(r.(rest := [], prev := Chain(h, r.prev, Footer(total)), done := true))
  {
    var sum := Chain(h, r.prev, Footer(total));
    assert r.rest == [FOOTER_TAG] + (Uvarint(total) + sum);
    assert r.rest[1..] == Uvarint(total) + sum;
    TakeReads(total, sum, r.clean);
    assert |sum| == 8 && sum[..8] == sum && sum[8..] == [];
  }

  /** The next frame of a body is its first block. */
  lemma BodyStarts(h: Hash, prev: Text, blocks: seq<seq<Record>>, total: nat)
    requires blocks != []
    ensures Body(h, prev, blocks, total) ==
            Block(h, prev, blocks[0]) + Body(h, Chain(h, prev, Covered(blocks[0])), blocks[1..], total)
  {
    var next := Chain(h, prev, Covered(blocks[0]));
    Seqs.Assoc(Block(h, prev, blocks[0]), Blocks(h, next, blocks[1..]), Ending(h, After(h, prev, blocks), total));
  }

  /** r stands before the blocks of a run, and its end. */
  predicate Before(h: Hash, r: Reader, blocks: seq<seq<Record>>, total: nat)
  {
    && r.rest == Body(h, r.prev, blocks, total) && total == r.served + |Flatten(blocks)|
    && r.block == [] && r.left == 0 && !r.done && r.clean && (r.expected < 0 || r.expected == total)
  }

  lemma BodyMoves(h: Hash, r: Reader, blocks: seq<seq<Record>>, total: nat) returns (next: Reader)
    requires IsDigest(h) && AllSized(blocks) && blocks != [] && Before(h, r, blocks, total)
    ensures Before(h, next, blocks[1..], total) && ReadAll(h, r) == PrependAll(blocks[0], ReadAll(h, next))
  {
    var block, prev := blocks[0], Chain(h, r.prev, Covered(blocks[0]));
    var after := Body(h, prev, blocks[1..], total);
    BodyStarts(h, r.prev, blocks, total);
    BlockReads(h, r, block, after);
    var serving := r.(rest := after, prev := prev, block := Payload(block), left := |block|);
    BlockServes(h, serving, block);
    next := Drained(serving);
    assert |Flatten(blocks)| == |block| + |Flatten(blocks[1..])|;
  }

  /** The rest of a run reads as the records it still holds. */
  lemma {:induction false} BodyReads(h: Hash, r: Reader, blocks: seq<seq<Record>>, total: nat)
    requires IsDigest(h) && AllSized(blocks) && total < TWO_64 && Before(h, r, blocks, total)
    ensures ReadAll(h, r) == Got(Flatten(blocks))
    decreases |blocks|
  {
    if blocks == [] {
      assert r.rest == Ending(h, r.prev, total);
      FooterReads(h, r, total);
    } else {
      var next := BodyMoves(h, r, blocks, total);
      BodyReads(h, next, blocks[1..], total);
    }
  }

  /** Every run the writer can write reads back as exactly its records, then the
      end, with or without the pointer's count. */
  lemma RunRoundTrip(h: Hash, blocks: seq<seq<Record>>, expected: int)
    requires IsDigest(h) && AllSized(blocks) && |Flatten(blocks)| < TWO_64
    requires expected < 0 || expected == |Flatten(blocks)|
    ensures ReadRun(h, MAGIC + Body(h, h(MAGIC), blocks, |Flatten(blocks)|), true, expected) == Got(Flatten(blocks))
  {
    var total := |Flatten(blocks)|;
    var body := Body(h, h(MAGIC), blocks, total);
    var bytes := MAGIC + body;
    assert bytes[..|MAGIC|] == MAGIC && bytes[|MAGIC|..] == body;
    BodyReads(h, Reader(body, true, h(MAGIC), expected, 0, [], 0, false), blocks, total);
  }
}
