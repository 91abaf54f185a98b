/** How one run is read back: each frame is checked before any of its records is
    served. */
module RunReader {
  import opened Texts
  import opened Records
  import opened Outcomes
  import opened Varints
  import opened RunCodec

  /** Why a read fails: the stored bytes are wrong, or their source broke off and
      may read whole another time. */
  datatype Fault = Corrupt | BrokeOff

  datatype Reading<T> = Got(value: T) | Bad(fault: Fault)

  /** A reader: the bytes to come and whether they end cleanly, the chain so far,
      the count its pointer requires (none if negative), the records served, and
      the rest of the current block with the records it holds. */
  datatype Reader = Reader(rest: Text, clean: bool, prev: Text, expected: int, served: nat, block: Text, left: nat,
                           done: bool)

  /** short. */
  function Short(clean: bool): Fault { if clean then Corrupt else BrokeOff }

  datatype Prefix = Prefix(value: nat, read: Text, rest: Text)

  /** readUvarint, on the bytes to come. */
  function TakeUvarint(rest: Text, clean: bool): (r: Reading<Prefix>)
    ensures r.Got? ==> rest == r.value.read + r.value.rest && r.value.read != []
  {
    match GetUvarint(rest, 0)
    case Ok(v) => Got(Prefix(v.value, rest[..v.size], rest[v.size..]))
    case Failed => Bad(if RanOut(rest, 0) then Short(clean) else Corrupt)
  }

  /** verify: the checksum that follows, if it is the chain's. */
  function Verify(h: Hash, r: Reader, part: Text): Reading<Reader>
  {
    if |r.rest| < 8 then Bad(Short(r.clean))
    else if r.rest[..8] != Chain(h, r.prev, part) then Bad(Corrupt)
    else Got(r.(rest := r.rest[8..], prev := r.rest[..8]))
  }

  /** The payload that head announces, and its checksum. Every record takes at
      least three bytes. */
  function ReadPayload(h: Hash, r: Reader, count: nat, length: nat, head: Text): Reading<Reader>
  {
    if count == 0 || length > MAX_BLOCK || count > length / 3 then Bad(Corrupt)
    else if |r.rest| < length then Bad(Short(r.clean))
    else
      match Verify(h, r.(rest := r.rest[length..]), head + r.rest[..length])
      case Bad(f) => Bad(f)
      case Got(next) => Got(next.(block := r.rest[..length], left := count))
  }

  /** readBlock, after the tag. */
  function ReadBlock(h: Hash, r: Reader): Reading<Reader>
  {
    match TakeUvarint(r.rest, r.clean)
    case Bad(f) => Bad(f)
    case Got(count) =>
      match TakeUvarint(count.rest, r.clean)
      case Bad(f) => Bad(f)
      case Got(length) =>
        ReadPayload(h, r.(rest := length.rest), count.value, length.value, [BLOCK_TAG] + (count.read + length.read))
  }

  /** readFooter, after the tag. */
  function ReadFooter(h: Hash, r: Reader): Reading<Reader>
  {
    match TakeUvarint(r.rest, r.clean)
    case Bad(f) => Bad(f)
    case Got(count) =>
      match Verify(h, r.(rest := count.rest), [FOOTER_TAG] + count.read)
      case Bad(f) => Bad(f)
      case Got(next) =>
        if count.value != r.served || (r.expected >= 0 && count.value != r.expected) || next.rest != [] then
          Bad(Corrupt)
        else if !r.clean then Bad(BrokeOff)
        else Got(next.(done := true))
  }

  /** readFrame. */
  function ReadFrame(h: Hash, r: Reader): (next: Reading<Reader>)
    ensures next.Got? ==> |next.value.rest| < |r.rest|
  {
    if r.rest == [] then Bad(Short(r.clean))
    else
      var tagged := r.(rest := r.rest[1..]);
      if r.rest[0] == BLOCK_TAG then ReadBlock(h, tagged)
      else if r.rest[0] == FOOTER_TAG then ReadFooter(h, tagged)
      else Bad(Corrupt)
  }

  /** The three field lengths at the front of a block, then the fields. */
  function DecodeFields(b: Text, lengths: seq<nat>): Outcome<(seq<Text>, Text)>
  {
    if lengths == [] then Ok(([], b))
    else if lengths[0] > |b| then Failed
    else
      match DecodeFields(b[lengths[0]..], lengths[1..])
      case Failed => Failed
      case Ok((fields, rest)) => Ok(([b[..lengths[0]]] + fields, rest))
  }

  function DecodeLengths(b: Text, n: nat): Outcome<(seq<nat>, Text)>
  {
    if n == 0 then Ok(([], b))
    else
      match GetUvarint(b, 0)
      case Failed => Failed
      case Ok(v) =>
        match DecodeLengths(b[v.size..], n - 1)
        case Failed => Failed
        case Ok((lengths, rest)) => Ok(([v.value] + lengths, rest))
  }

  /** decodeRecord: the next record of a block, and the block after it. */
  function DecodeRecord(b: Text): Outcome<(Record, Text)>
  {
    match DecodeLengths(b, 3)
    case Failed => Failed
    case Ok((lengths, rest)) =>
      match DecodeFields(rest, lengths)
      case Failed => Failed
      case Ok((fields, after)) =>
        if |fields| == 3 then Ok((Record(fields[0], fields[1], fields[2]), after)) else Failed
  }

  function Serve(r: Reader): Reading<(Record, Reader)>
    requires r.left > 0
  {
    match DecodeRecord(r.block)
    case Failed => Bad(Corrupt)
    case Ok((record, after)) =>
      if r.left == 1 && after != [] then Bad(Corrupt)
      else Got((record, r.(block := after, left := r.left - 1, served := r.served + 1)))
  }

  function Prepend(record: Record, rest: Reading<seq<Record>>): Reading<seq<Record>>
  {
    match rest
    case Got(records) => Got([record] + records)
    case Bad(f) => Bad(f)
  }

  /** What has been read, and then what reading on gives. */
  function PrependAll(records: seq<Record>, rest: Reading<seq<Record>>): Reading<seq<Record>>
  {
    match rest
    case Got(more) => Got(records + more)
    case Bad(f) => Bad(f)
  }

  lemma PrependNone(rest: Reading<seq<Record>>)
    ensures PrependAll([], rest) == rest
  {
    if rest.Got? {
      assert [] + rest.value == rest.value;
    }
  }

  /** Everything a reader serves until its end, or the fault that stops it. */
  function ReadAll(h: Hash, r: Reader): Reading<seq<Record>>
    decreases |r.rest|, r.left
  {
    if r.left > 0 then
      match Serve(r)
      case Bad(f) => Bad(f)
      case Got((record, next)) => Prepend(record, ReadAll(h, next))
    else if r.done then Got([])
    else
      match ReadFrame(h, r)
      case Bad(f) => Bad(f)
      case Got(next) => ReadAll(h, next)
  }

  /** newEncodedIntermediateReader. */
  function Open(h: Hash, bytes: Text, clean: bool, expected: int): Reading<Reader>
  {
    if |bytes| < |MAGIC| then Bad(Short(clean))
    else if bytes[..|MAGIC|] != MAGIC then Bad(Corrupt)
    else Got(Reader(bytes[|MAGIC|..], clean, h(MAGIC), expected, 0, [], 0, false))
  }

  /** The records of a stored run, or why it cannot be read. */
  function ReadRun(h: Hash, bytes: Text, clean: bool, expected: int): Reading<seq<Record>>
  {
    match Open(h, bytes, clean, expected)
    case Bad(f) => Bad(f)
    case Got(r) => ReadAll(h, r)
  }
}
