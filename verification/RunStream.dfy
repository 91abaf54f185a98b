/** The run reader as it runs, proved against RunReader's functions. */
module RunStream {
  import opened Texts
  import opened Records
  import opened Outcomes
  import opened Varints
  import opened RunCodec
  import opened RunReader

  function Times(scale: nat, bits: nat): nat { scale * bits }

  /** What the i bytes read so far make of the varint that the rest completes:
      they are worth n, and the next is worth scale times its bits. */
  function Completed(n: nat, scale: nat, i: nat, rest: Outcome<Varint>): Outcome<Varint>
  {
    match rest
    case Ok(v) => Ok(Varint(n + Times(scale, v.value), i + v.size))
    case Failed => Failed
  }

  /** i bytes of a varint have been read, all with their high bit set. */
  ghost predicate Underway(all: Text, n: nat, scale: nat, i: nat, read: Text, rest: Text)
  {
    && i <= MAX_LEN && |read| == i && all == read + rest
    && GetUvarint(all, 0) == Completed(n, scale, i, GetUvarint(rest, i))
    && RanOut(all, 0) == RanOut(rest, i)
  }

  lemma UnderwayStarts(all: Text)
    ensures Underway(all, 0, 1, 0, [], all)
  {
    assert [] + all == all;
  }

  lemma UnderwayGoes(all: Text, n: nat, scale: nat, i: nat, read: Text, rest: Text)
    requires Underway(all, n, scale, i, read, rest) && i < MAX_LEN && rest != [] && rest[0] >= 128
    ensures Underway(all, n + Times(scale, rest[0] as int - 128), 128 * scale, i + 1, read + [rest[0]], rest[1..])
  {
    assert all == (read + [rest[0]]) + rest[1..];
    var more := GetUvarint(rest[1..], i + 1);
    if more.Ok? {
      Distributes(scale, rest[0] as int - 128, 128, more.value.value);
    }
  }

  lemma UnderwayEnds(all: Text, n: nat, scale: nat, i: nat, read: Text, rest: Text, clean: bool)
    requires Underway(all, n, scale, i, read, rest) && i < MAX_LEN && rest != [] && rest[0] < 128
    ensures TakeUvarint(all, clean) ==
            if i == MAX_LEN - 1 && rest[0] > 1 then Bad(Corrupt)
            else Got(Prefix(n + Times(scale, rest[0] as int), read + [rest[0]], rest[1..]))
  {
    assert all == (read + [rest[0]]) + rest[1..];
    assert all[..i + 1] == read + [rest[0]] && all[i + 1..] == rest[1..];
  }

  lemma UnderwayStops(all: Text, n: nat, scale: nat, i: nat, read: Text, rest: Text, clean: bool)
    requires Underway(all, n, scale, i, read, rest) && (rest == [] || i == MAX_LEN)
    ensures TakeUvarint(all, clean) == Bad(if i == MAX_LEN then Corrupt else Short(clean))
  {
  }

  lemma Distributes(p: nat, d: nat, k: nat, v: nat)
    ensures p * (d + k * v) == p * d + (k * p) * v
  {
  }

  class Stream {
    const h: Hash
    const clean: bool
    const expected: int
    var rest: Text
    var prev: Text
    var served: nat
    var block: Text
    var left: nat
    var done: bool

    ghost function Now(): Reader
      reads this
    {
      Reader(rest, clean, prev, expected, served, block, left, done)
    }

    constructor (h: Hash, rest: Text, clean: bool, expected: int)
      ensures this.h == h && Now() == Reader(rest, clean, h(MAGIC), expected, 0, [], 0, false)
    {
      this.h, this.clean, this.expected, this.rest := h, clean, expected, rest;
      prev, served, block, left, done := h(MAGIC), 0, [], 0, false;
    }

    /** readUvarint. read is what the frame's checksum will cover of it. */
    method ReadUvarint() returns (r: Reading<nat>, read: Text)
      modifies `rest
      ensures match TakeUvarint(old(rest), clean)
              case Got(p) => r == Got(p.value) && read == p.read && rest == p.rest
              case Bad(f) => r == Bad(f)
    {
      read := [];
      var n: nat, scale: nat := 0, 1;
      ghost var all := rest;
      UnderwayStarts(all);
      for i := 0 to MAX_LEN
        invariant Underway(all, n, scale, i, read, rest)
      {
        if rest == [] {
          UnderwayStops(all, n, scale, i, read, rest, clean);
          return Bad(Short(clean)), read;
        }
        var b := rest[0];
        if b < 128 {
          UnderwayEnds(all, n, scale, i, read, rest, clean);
          read, rest := read + [b], rest[1..];
          if i == MAX_LEN - 1 && b > 1 {
            return Bad(Corrupt), read;
          }
          return Got(n + Times(scale, b as int)), read;
        }
        UnderwayGoes(all, n, scale, i, read, rest);
        read, rest := read + [b], rest[1..];
        n, scale := n + Times(scale, b as int - 128), 128 * scale;
      }
      UnderwayStops(all, n, scale, MAX_LEN, read, rest, clean);
      r := Bad(Corrupt);
    }

    /** verify. */
    method Verify(part: Text) returns (fault: Option<Fault>)
      modifies `rest, `prev
      ensures match RunReader.Verify(h, old(Now()), part)
              case Got(next) => fault.None? && Now() == next
              case Bad(f) => fault == Some(f)
    {
      if |rest| < 8 {
        return Some(Short(clean));
      }
      var got := rest[..8];
      if got != h(prev + part) {
        return Some(Corrupt);
      }
      rest, prev := rest[8..], got;
      fault := None;
    }

    method ReadBlock() returns (fault: Option<Fault>)
      modifies this
      ensures match RunReader.ReadBlock(h, old(Now()))
              case Got(next) => fault.None? && Now() == next
              case Bad(f) => fault == Some(f)
    {
      var count, countRead := ReadUvarint();
      if count.Bad? {
        return Some(count.fault);
      }
      var length, lengthRead := ReadUvarint();
      if length.Bad? {
        return Some(length.fault);
      }
      if count.value == 0 || length.value > MAX_BLOCK || count.value > length.value / 3 {
        return Some(Corrupt);
      }
      if |rest| < length.value {
        return Some(Short(clean));
      }
      var payload := rest[..length.value];
      rest := rest[length.value..];
      fault := Verify([BLOCK_TAG] + (countRead + lengthRead) + payload);
      if fault.None? {
        block, left := payload, count.value;
      }
    }

    method ReadFooter() returns (fault: Option<Fault>)
      modifies this
      ensures match RunReader.ReadFooter(h, old(Now()))
              case Got(next) => fault.None? && Now() == next
              case Bad(f) => fault == Some(f)
    {
      var count, read := ReadUvarint();
      if count.Bad? {
        return Some(count.fault);
      }
      fault := Verify([FOOTER_TAG] + read);
      if fault.Some? {
        return;
      }
      if count.value != served {
        return Some(Corrupt);
      }
      if expected >= 0 && count.value != expected {
        return Some(Corrupt);
      }
      if rest != [] {
        return Some(Corrupt);
      }
      if !clean {
        return Some(BrokeOff);
      }
      done := true;
    }

    method ReadFrame() returns (fault: Option<Fault>)
      modifies this
      ensures match RunReader.ReadFrame(h, old(Now()))
              case Got(next) => fault.None? && Now() == next
              case Bad(f) => fault == Some(f)
    {
      if rest == [] {
        return Some(Short(clean));
      }
      var tag := rest[0];
      rest := rest[1..];
      if tag == BLOCK_TAG {
        fault := ReadBlock();
      } else if tag == FOOTER_TAG {
        fault := ReadFooter();
      } else {
        fault := Some(Corrupt);
      }
    }

    /** decodeRecord's field lengths. */
    method TakeLengths() returns (lengths: Outcome<seq<nat>>)
      modifies `block
      ensures match DecodeLengths(old(block), 3)
              case Ok((ls, rest)) => lengths == Ok(ls) && block == rest && |ls| == 3
              case Failed => lengths.Failed?
    {
      var ls := [];
      MoreNothing(DecodeLengths(block, 3), DecodeFields(block, []));
      for i := 0 to 3
        invariant |ls| == i && DecodeLengths(old(block), 3) == MoreLengths(ls, DecodeLengths(block, 3 - i))
      {
        var v := GetUvarint(block, 0);
        if v.Failed? {
          return Failed;
        }
        LengthsGo(ls, block, 3 - i);
        ls, block := ls + [v.value.value], block[v.value.size..];
      }
      assert ls + [] == ls;
      lengths := Ok(ls);
    }

    method TakeFields(lengths: seq<nat>) returns (fields: Outcome<seq<Text>>)
      modifies `block
      ensures match DecodeFields(old(block), lengths)
              case Ok((fs, rest)) => fields == Ok(fs) && block == rest && |fs| == |lengths|
              case Failed => fields.Failed?
    {
      var fs := [];
      assert lengths[0..] == lengths;
      MoreNothing(DecodeLengths(block, 3), DecodeFields(block, lengths));
      for i := 0 to |lengths|
        invariant |fs| == i && DecodeFields(old(block), lengths) == MoreFields(fs, DecodeFields(block, lengths[i..]))
      {
        if lengths[i] > |block| {
          return Failed;
        }
        FieldsGo(fs, block, lengths[i..]);
        assert lengths[i..][1..] == lengths[i + 1..];
        fs, block := fs + [block[..lengths[i]]], block[lengths[i]..];
      }
      assert fs + [] == fs && lengths[|lengths|..] == [];
      fields := Ok(fs);
    }

    /** decodeRecord. */
    method Decode() returns (r: Reading<Record>)
      requires left > 0
      modifies `block, `left
      ensures match Serve(old(Now()))
              case Got((record, next)) => r == Got(record) && Now().(served := served + 1) == next
              case Bad(f) => r == Bad(f)
    {
      var lengths := TakeLengths();
      if lengths.Failed? {
        return Bad(Corrupt);
      }
      var fields := TakeFields(lengths.value);
      if fields.Failed? {
        return Bad(Corrupt);
      }
      left := left - 1;
      if left == 0 && block != [] {
        return Bad(Corrupt);
      }
      r := Got(Record(fields.value[0], fields.value[1], fields.value[2]));
    }

    /** Next: the first of the records to come, None at the end, or the fault. */
    method Next() returns (r: Reading<Option<Record>>)
      modifies this
      ensures ReadAll(h, old(Now())) ==
              match r
              case Bad(f) => Bad(f)
              case Got(None) => Got([])
              case Got(Some(record)) => Prepend(record, ReadAll(h, Now()))
      ensures r.Got? && r.value.Some? ==> |rest| < old(|rest|) || (|rest| == old(|rest|) && left < old(left))
    {
      while left == 0
        invariant ReadAll(h, old(Now())) == ReadAll(h, Now())
        invariant |rest| < old(|rest|) || (|rest| == old(|rest|) && left == old(left))
        decreases |rest|
      {
        if done {
          return Got(None);
        }
        var fault := ReadFrame();
        if fault.Some? {
          return Bad(fault.value);
        }
      }
      var record := Decode();
      if record.Bad? {
        return Bad(record.fault);
      }
      served := served + 1;
      r := Got(Some(record.value));
    }
  }

  /** newEncodedIntermediateReader. */
  method OpenRun(h: Hash, bytes: Text, clean: bool, expected: int) returns (r: Reading<Stream>)
    ensures match Open(h, bytes, clean, expected)
            case Got(reader) => r.Got? && fresh(r.value) && r.value.h == h && r.value.Now() == reader
            case Bad(f) => r == Bad(f)
  {
    if |bytes| < |MAGIC| {
      return Bad(Short(clean));
    }
    if bytes[..|MAGIC|] != MAGIC {
      return Bad(Corrupt);
    }
    var stream := new Stream(h, bytes[|MAGIC|..], clean, expected);
    r := Got(stream);
  }

  lemma ReadsOn(records: seq<Record>, record: Record, rest: Reading<seq<Record>>)
    ensures PrependAll(records, Prepend(record, rest)) == PrependAll(records + [record], rest)
  {
    if rest.Got? {
      assert records + ([record] + rest.value) == (records + [record]) + rest.value;
    }
  }

  /** Calls Next until it reports the end, or a fault. */
  method ReadRecords(stream: Stream) returns (r: Reading<seq<Record>>)
    modifies stream
    ensures r == ReadAll(stream.h, old(stream.Now()))
  {
    var records: seq<Record> := [];
    ghost var whole := ReadAll(stream.h, stream.Now());
    PrependNone(whole);
    while true
      invariant whole == PrependAll(records, ReadAll(stream.h, stream.Now()))
      decreases |stream.rest|, stream.left
    {
      var next := stream.Next();
      if next.Bad? {
        return Bad(next.fault);
      }
      if next.value.None? {
        assert records + [] == records;
        return Got(records);
      }
      ReadsOn(records, next.value.value, ReadAll(stream.h, stream.Now()));
      records := records + [next.value.value];
    }
  }

  /** The records of a stored run, read as its reader reads them. */
  method ReadBytes(h: Hash, bytes: Text, clean: bool, expected: int) returns (r: Reading<seq<Record>>)
    ensures r == ReadRun(h, bytes, clean, expected)
  {
    var stream := OpenRun(h, bytes, clean, expected);
    if stream.Bad? {
      return Bad(stream.fault);
    }
    r := ReadRecords(stream.value);
  }

  function MoreLengths(ls: seq<nat>, rest: Outcome<(seq<nat>, Text)>): Outcome<(seq<nat>, Text)>
  {
    match rest
    case Ok((more, b)) => Ok((ls + more, b))
    case Failed => Failed
  }

  lemma LengthsGo(ls: seq<nat>, b: Text, n: nat)
    requires n > 0 && GetUvarint(b, 0).Ok?
    ensures var v := GetUvarint(b, 0).value;
            MoreLengths(ls, DecodeLengths(b, n)) == MoreLengths(ls + [v.value], DecodeLengths(b[v.size..], n - 1))
  {
    var v := GetUvarint(b, 0).value;
    var rest := DecodeLengths(b[v.size..], n - 1);
    if rest.Ok? {
      assert ls + ([v.value] + rest.value.0) == (ls + [v.value]) + rest.value.0;
    }
  }

  function MoreFields(fs: seq<Text>, rest: Outcome<(seq<Text>, Text)>): Outcome<(seq<Text>, Text)>
  {
    match rest
    case Ok((more, b)) => Ok((fs + more, b))
    case Failed => Failed
  }

  lemma MoreNothing(a: Outcome<(seq<nat>, Text)>, b: Outcome<(seq<Text>, Text)>)
    ensures MoreLengths([], a) == a && MoreFields([], b) == b
  {
    if a.Ok? {
      assert [] + a.value.0 == a.value.0;
    }
    if b.Ok? {
      assert [] + b.value.0 == b.value.0;
    }
  }

  lemma FieldsGo(fs: seq<Text>, b: Text, lengths: seq<nat>)
    requires lengths != [] && lengths[0] <= |b|
    ensures MoreFields(fs, DecodeFields(b, lengths)) ==
            MoreFields(fs + [b[..lengths[0]]], DecodeFields(b[lengths[0]..], lengths[1..]))
  {
    var rest := DecodeFields(b[lengths[0]..], lengths[1..]);
    if rest.Ok? {
      assert fs + ([b[..lengths[0]]] + rest.value.0) == (fs + [b[..lengths[0]]]) + rest.value.0;
    }
  }
}
