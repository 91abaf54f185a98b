/** What the checksum chain of a run is worth. */
module RunIntegrity {
  import opened Texts
  import opened Records
  import opened Outcomes
  import opened Varints
  import opened RunCodec
  import opened RunReader

  // ---------------------------------------------------------------- the frames a reader took

  /** The bytes of the frame that took r to next, without its checksum. */
  function Part(r: Reader, next: Reader): Text
    requires |next.rest| + 8 <= |r.rest|
  {
    r.rest[..|r.rest| - |next.rest| - 8]
  }

  lemma PartIs(r: Reader, next: Reader, part: Text)
    requires |next.prev| == 8 && r.rest == part + (next.prev + next.rest)
    ensures |next.rest| + 8 <= |r.rest| && Part(r, next) == part
  {
  }

  lemma PayloadShape(h: Hash, r: Reader, count: nat, length: nat, head: Text, next: Reader)
    requires IsDigest(h) && ReadPayload(h, r, count, length, head) == Got(next)
    ensures next == r.(rest := next.rest, prev := next.prev, block := next.block, left := count) && count > 0
    ensures r.rest == next.block + (next.prev + next.rest) && next.prev == Chain(h, r.prev, head + next.block)
  {
    var after := r.rest[length..];
    assert r.rest == r.rest[..length] + after;
    assert after == after[..8] + after[8..];
  }

  lemma Regroup(a: Text, b: Text, c: Text, d: Text)
    ensures a + (b + (c + d)) == (a + (b + c)) + d && [BLOCK_TAG] + (a + b) + c == [BLOCK_TAG] + (a + (b + c))
  {
  }

  lemma BlockShape(h: Hash, r: Reader, next: Reader)
    requires IsDigest(h) && ReadBlock(h, r) == Got(next)
    ensures next == r.(rest := next.rest, prev := next.prev, block := next.block, left := next.left) && next.left > 0
    ensures |next.rest| + 8 <= |r.rest| && r.rest == Part(r, next) + (next.prev + next.rest)
    ensures next.prev == Chain(h, r.prev, [BLOCK_TAG] + Part(r, next))
  {
    var count := TakeUvarint(r.rest, r.clean).value;
    var length := TakeUvarint(count.rest, r.clean).value;
    PayloadShape(h, r.(rest := length.rest), count.value, length.value, [BLOCK_TAG] + (count.read + length.read), next);
    Regroup(count.read, length.read, next.block, next.prev + next.rest);
    PartIs(r, next, count.read + (length.read + next.block));
  }

  lemma FooterShape(h: Hash, r: Reader, next: Reader)
    requires IsDigest(h) && ReadFooter(h, r) == Got(next)
    ensures next.rest == [] && 8 <= |r.rest| && next.left == r.left && next.done && next.served == r.served
    ensures next.prev == Chain(h, r.prev, [FOOTER_TAG] + Part(r, next)) &&
            r.rest == Part(r, next) + (next.prev + next.rest)
    ensures TakeUvarint(r.rest, r.clean).Got? && TakeUvarint(r.rest, r.clean).value.value == r.served
    ensures Part(r, next) == TakeUvarint(r.rest, r.clean).value.read
    ensures r.expected < 0 || r.served == r.expected
  {
    var count := TakeUvarint(r.rest, r.clean).value;
    assert count.rest == next.prev + next.rest;
    PartIs(r, next, count.read);
  }

  lemma Tagged(rest: Text, tag: Byte, part: Text, after: Text)
    requires rest != [] && rest[0] == tag && rest[1..] == part + after
    ensures rest == ([tag] + part) + after
  {
    assert rest == [tag] + rest[1..];
  }

  /** A frame is its bytes and then the checksum that chains them. */
  lemma FrameShape(h: Hash, r: Reader, next: Reader)
    requires IsDigest(h) && ReadFrame(h, r) == Got(next)
    ensures |next.rest| + 8 <= |r.rest| && Part(r, next) != []
    ensures next.prev == Chain(h, r.prev, Part(r, next)) && r.rest == Part(r, next) + (next.prev + next.rest)
    ensures next.done ==> r.done || next.rest == []
  {
    var tag, tagged := r.rest[0], r.(rest := r.rest[1..]);
    if tag == BLOCK_TAG {
      BlockShape(h, tagged, next);
    } else {
      FooterShape(h, tagged, next);
    }
    Tagged(r.rest, tag, Part(tagged, next), next.prev + next.rest);
    PartIs(r, next, [tag] + Part(tagged, next));
  }

  /** The frames that were verified, in order, as far as the reader came. */
  ghost function Parts(h: Hash, r: Reader): seq<Text>
    requires IsDigest(h)
    decreases |r.rest|, r.left
  {
    if r.left > 0 then
      match Serve(r)
      case Bad(_) => []
      case Got((_, next)) => Parts(h, next)
    else if r.done then []
    else
      match ReadFrame(h, r)
      case Bad(_) => []
      case Got(next) =>
        FrameShape(h, r, next);
        [Part(r, next)] + Parts(h, next)
  }

  // ---------------------------------------------------------------- chains

  /** The checksum at the end of a chain of parts. */
  function Sum(h: Hash, parts: seq<Text>): Text
  {
    if parts == [] then h(MAGIC) else h(Sum(h, parts[..|parts| - 1]) + parts[|parts| - 1])
  }

  /** The strings that are hashed for it. */
  function Inputs(h: Hash, parts: seq<Text>): set<Text>
  {
    if parts == [] then {MAGIC}
    else Inputs(h, parts[..|parts| - 1]) + {Sum(h, parts[..|parts| - 1]) + parts[|parts| - 1]}
  }

  /** No two of texts have the same checksum. */
  ghost predicate Distinguishes(h: Hash, texts: set<Text>)
  {
    forall u, v | u in texts && v in texts && h(u) == h(v) :: u == v
  }

  lemma SumLength(h: Hash, parts: seq<Text>)
    requires IsDigest(h)
    ensures |Sum(h, parts)| == 8
  {
  }

  lemma {:induction false} InputsHas(h: Hash, parts: seq<Text>)
    ensures MAGIC in Inputs(h, parts)
    ensures parts != [] ==> Sum(h, parts[..|parts| - 1]) + parts[|parts| - 1] in Inputs(h, parts)
    decreases |parts|
  {
    if parts != [] {
      InputsHas(h, parts[..|parts| - 1]);
    }
  }

  predicate NoneEmpty(parts: seq<Text>)
  {
    forall i | 0 <= i < |parts| :: parts[i] != []
  }

  /** A chain does not end where it starts. */
  lemma NotTheStart(h: Hash, parts: seq<Text>, texts: set<Text>)
    requires IsDigest(h) && NoneEmpty(parts) && parts != [] && Inputs(h, parts) <= texts && Distinguishes(h, texts)
    ensures Sum(h, parts) != h(MAGIC)
  {
    var front, last := parts[..|parts| - 1], parts[|parts| - 1];
    InputsHas(h, parts);
    SumLength(h, front);
    assert |Sum(h, front) + last| > |MAGIC|;
  }

  /** Under a hash that tells apart what is hashed, a checksum names its chain. */
  lemma {:induction false} SumNames(h: Hash, a: seq<Text>, b: seq<Text>, texts: set<Text>)
    requires IsDigest(h) && NoneEmpty(a) && NoneEmpty(b) && Sum(h, a) == Sum(h, b)
    requires Inputs(h, a) <= texts && Inputs(h, b) <= texts && Distinguishes(h, texts)
    ensures a == b
    decreases |a|
  {
    if a == [] {
      if b != [] {
        NotTheStart(h, b, texts);
      }
    } else if b == [] {
      NotTheStart(h, a, texts);
    } else {
      var fa, la, fb, lb := a[..|a| - 1], a[|a| - 1], b[..|b| - 1], b[|b| - 1];
      InputsHas(h, a);
      InputsHas(h, b);
      assert Sum(h, fa) + la == Sum(h, fb) + lb;
      SumLength(h, fa);
      SumLength(h, fb);
      SplitAt(Sum(h, fa), la, Sum(h, fb), lb);
      SumNames(h, fa, fb, texts);
      assert a == fa + [la] && b == fb + [lb];
    }
  }

  lemma SplitAt(a: Text, x: Text, b: Text, y: Text)
    requires |a| == |b| && a + x == b + y
    ensures a == b && x == y
  {
    assert a == (a + x)[..|a|] && x == (a + x)[|a|..];
    assert b == (b + y)[..|b|] && y == (b + y)[|b|..];
  }

  // ---------------------------------------------------------------- bytes

  /** parts as they lie in a run, each followed by its checksum. */
  function Sealed(h: Hash, done: seq<Text>, parts: seq<Text>): Text
    decreases |parts|
  {
    if parts == [] then []
    else parts[0] + (Sum(h, done + [parts[0]]) + Sealed(h, done + [parts[0]], parts[1..]))
  }

  lemma SumOn(h: Hash, done: seq<Text>, part: Text)
    ensures Sum(h, done + [part]) == Chain(h, Sum(h, done), part)
  {
    assert (done + [part])[..|done|] == done;
  }

  /** A run that is accepted is its frames and their chain, and nothing more. */
  lemma {:induction false} AcceptedIsSealed(h: Hash, r: Reader, done: seq<Text>)
    requires IsDigest(h) && ReadAll(h, r).Got? && r.prev == Sum(h, done) && (r.done ==> r.rest == [])
    ensures r.rest == Sealed(h, done, Parts(h, r)) && NoneEmpty(Parts(h, r))
    decreases |r.rest|, r.left
  {
    if r.left > 0 {
      AcceptedIsSealed(h, Serve(r).value.1, done);
    } else if !r.done {
      var next := ReadFrame(h, r).value;
      FrameShape(h, r, next);
      SumOn(h, done, Part(r, next));
      AcceptedIsSealed(h, next, done + [Part(r, next)]);
      assert Parts(h, r)[1..] == Parts(h, next);
    }
  }

  /** The last checksum is the last thing in a run. */
  lemma {:induction false} SealedEnds(h: Hash, done: seq<Text>, parts: seq<Text>)
    requires IsDigest(h) && parts != []
    ensures var s := Sealed(h, done, parts);
            |s| >= 8 && s[|s| - 8..] == Sum(h, done + parts)
    decreases |parts|
  {
    var d := done + [parts[0]];
    SumLength(h, d);
    var s, rest := Sealed(h, done, parts), Sealed(h, d, parts[1..]);
    if parts[1..] == [] {
      assert done + parts == d;
      assert s == parts[0] + Sum(h, d);
    } else {
      SealedEnds(h, d, parts[1..]);
      assert d + parts[1..] == done + parts;
      assert s == (parts[0] + Sum(h, d)) + rest;
      assert s[|s| - 8..] == rest[|rest| - 8..];
    }
  }

  // ---------------------------------------------------------------- whole runs

  /** The frames verified while reading bytes. */
  ghost function PartsOf(h: Hash, bytes: Text, expected: int): seq<Text>
    requires IsDigest(h)
  {
    match Open(h, bytes, true, expected)
    case Bad(_) => []
    case Got(r) => Parts(h, r)
  }

  lemma SomeParts(h: Hash, r: Reader)
    requires IsDigest(h) && ReadAll(h, r).Got? && r.left == 0 && !r.done
    ensures Parts(h, r) != []
  {
  }

  /** An accepted run is its header, its frames and their chain, and it ends in the
      chain's last checksum. */
  lemma AcceptedRun(h: Hash, bytes: Text, expected: int)
    requires IsDigest(h) && ReadRun(h, bytes, true, expected).Got?
    ensures var parts := PartsOf(h, bytes, expected);
            && parts != [] && NoneEmpty(parts)
            && bytes == MAGIC + Sealed(h, [], parts)
            && |bytes| >= 8 && bytes[|bytes| - 8..] == Sum(h, parts)
  {
    var r := Open(h, bytes, true, expected).value;
    var parts := Parts(h, r);
    AcceptedIsSealed(h, r, []);
    SomeParts(h, r);
    SealedEnds(h, [], parts);
    assert [] + parts == parts;
    assert bytes == MAGIC + r.rest;
    assert bytes[|bytes| - 8..] == r.rest[|r.rest| - 8..];
  }

  /** Two accepted runs that end in the same checksum are the same bytes, when the
      hash tells apart the strings that were hashed for them. */
  lemma SameChecksumSameRun(h: Hash, a: Text, b: Text, ea: int, eb: int)
    requires IsDigest(h) && ReadRun(h, a, true, ea).Got? && ReadRun(h, b, true, eb).Got?
    requires |a| >= 8 && |b| >= 8 && a[|a| - 8..] == b[|b| - 8..]
    requires Distinguishes(h, Inputs(h, PartsOf(h, a, ea)) + Inputs(h, PartsOf(h, b, eb)))
    ensures a == b
  {
    AcceptedRun(h, a, ea);
    AcceptedRun(h, b, eb);
    SumNames(h, PartsOf(h, a, ea), PartsOf(h, b, eb), Inputs(h, PartsOf(h, a, ea)) + Inputs(h, PartsOf(h, b, eb)));
  }

  /** A run with a block dropped, repeated, reordered or taken from another run
      keeps its last checksum, but is no longer the run: it is refused. */
  lemma TamperedRefused(h: Hash, run: Text, tampered: Text, expected: int)
    requires IsDigest(h) && ReadRun(h, run, true, expected).Got? && |run| >= 8 && |tampered| >= 8
    requires tampered != run && tampered[|tampered| - 8..] == run[|run| - 8..]
    requires Distinguishes(h, Inputs(h, PartsOf(h, run, expected)) + Inputs(h, PartsOf(h, tampered, expected)))
    ensures ReadRun(h, tampered, true, expected).Bad?
  {
    if ReadRun(h, tampered, true, expected).Got? {
      SameChecksumSameRun(h, run, tampered, expected, expected);
    }
  }

  // ---------------------------------------------------------------- counts

  /** The count in a footer. */
  function FooterCount(part: Text): Reading<nat>
  {
    if part == [] || part[0] != FOOTER_TAG then Bad(Corrupt)
    else
      match TakeUvarint(part[1..], true)
      case Got(p) => Got(p.value)
      case Bad(f) => Bad(f)
  }

  /** A varint needs no more than its own bytes. */
  lemma {:induction false} VarintAlone(b: Text, i: nat)
    requires i <= MAX_LEN && GetUvarint(b, i).Ok?
    ensures GetUvarint(b[..GetUvarint(b, i).value.size], i) == GetUvarint(b, i)
    decreases |b|
  {
    if b[0] >= 128 {
      VarintAlone(b[1..], i + 1);
      var n := GetUvarint(b, i).value.size;
      assert b[..n][1..] == b[1..][..n - 1];
    }
  }

  lemma FooterTells(h: Hash, r: Reader)
    requires IsDigest(h) && r.left == 0 && !r.done && ReadFrame(h, r).Got? && r.rest[0] != BLOCK_TAG
    ensures var next := ReadFrame(h, r).value;
            && next.done && next.left == 0 && next.rest == [] && (r.expected < 0 || r.served == r.expected)
            && FooterCount(Part(r, next)) == Got(r.served)
  {
    var next, tagged := ReadFrame(h, r).value, r.(rest := r.rest[1..]);
    FooterShape(h, tagged, next);
    Tagged(r.rest, FOOTER_TAG, Part(tagged, next), next.prev + next.rest);
    PartIs(r, next, [FOOTER_TAG] + Part(tagged, next));
    var count := TakeUvarint(tagged.rest, r.clean).value;
    VarintAlone(tagged.rest, 0);
    assert ([FOOTER_TAG] + count.read)[1..] == count.read;
  }

  /** The frame that ended the run, if one did. */
  ghost function LastFrame(h: Hash, r: Reader): Text
    requires IsDigest(h)
    decreases |r.rest|, r.left
  {
    if r.left > 0 then
      match Serve(r)
      case Bad(_) => []
      case Got((_, next)) => LastFrame(h, next)
    else if r.done then []
    else
      match ReadFrame(h, r)
      case Bad(_) => []
      case Got(next) =>
        FrameShape(h, r, next);
        if next.done then Part(r, next) else LastFrame(h, next)
  }

  lemma ServeGoesOn(h: Hash, r: Reader) returns (next: Reader)
    requires IsDigest(h) && r.left > 0 && ReadAll(h, r).Got?
    ensures next.rest == r.rest && next.left < r.left && next.done == r.done && next.expected == r.expected
    ensures ReadAll(h, next).Got? && next.served + |ReadAll(h, next).value| == r.served + |ReadAll(h, r).value|
    ensures LastFrame(h, next) == LastFrame(h, r)
  {
    next := Serve(r).value.1;
  }

  lemma BlockGoesOn(h: Hash, r: Reader) returns (next: Reader)
    requires IsDigest(h) && r.left == 0 && !r.done && ReadFrame(h, r).Got? && r.rest[0] == BLOCK_TAG
    ensures |next.rest| < |r.rest| && !next.done && next.served == r.served && next.expected == r.expected
    ensures ReadAll(h, r) == ReadAll(h, next) && LastFrame(h, next) == LastFrame(h, r)
  {
    next := ReadFrame(h, r).value;
    BlockShape(h, r.(rest := r.rest[1..]), next);
  }

  lemma FooterEnds(h: Hash, r: Reader)
    requires IsDigest(h) && r.left == 0 && !r.done && ReadFrame(h, r).Got? && r.rest[0] != BLOCK_TAG
    ensures ReadAll(h, r) == Got([]) && FooterCount(LastFrame(h, r)) == Got(r.served)
    ensures r.expected < 0 || r.served == r.expected
  {
    FooterTells(h, r);
  }

  /** The end is reported only when the footer's count, and the pointer's if it has
      one, is the number of records served. */
  lemma {:induction false} EndCounts(h: Hash, r: Reader, total: nat)
    requires IsDigest(h) && ReadAll(h, r).Got? && !r.done && total == r.served + |ReadAll(h, r).value|
    ensures FooterCount(LastFrame(h, r)) == Got(total) && (r.expected < 0 || total == r.expected)
    decreases |r.rest|, r.left
  {
    if r.left > 0 {
      var next := ServeGoesOn(h, r);
      EndCounts(h, next, total);
    } else {
      assert ReadFrame(h, r).Got?;
      if r.rest[0] == BLOCK_TAG {
        var next := BlockGoesOn(h, r);
        EndCounts(h, next, total);
      } else {
        FooterEnds(h, r);
      }
    }
  }
}
