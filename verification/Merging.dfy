/** The merge of sorted runs into one sorted stream. */
module Merging {
  import opened Texts
  import opened Records
  import opened Outcomes
  import Seqs

  /** A run being read: the records to come, then its end or an error. */
  datatype Stream = Stream(rest: seq<Record>, broken: bool)

  datatype Cursor = Cursor(record: Record, stream: Stream, order: nat)

  datatype Read = Yield(record: Record) | End | Error

  /** intermediateHeap.Less. */
  predicate CursorLess(a: Cursor, b: Cursor)
  {
    if RecordLess(a.record, b.record) then true
    else if RecordLess(b.record, a.record) then false
    else a.order < b.order
  }

  predicate CursorsSorted(heap: seq<Cursor>)
  {
    forall i | 0 <= i < |heap| :: Sorted([heap[i].record] + heap[i].stream.rest)
  }

  /** Every record still to come, heap order. */
  function Pending(heap: seq<Cursor>): seq<Record>
  {
    if heap == [] then [] else [heap[0].record] + heap[0].stream.rest + Pending(heap[1..])
  }

  lemma {:induction false} PendingAppend(a: seq<Cursor>, b: seq<Cursor>)
    ensures Pending(a + b) == Pending(a) + Pending(b)
  {
    if a == [] {
      assert a + b == b;
    } else {
      PendingAppend(a[1..], b);
      assert (a + b)[1..] == a[1..] + b;
      Seqs.Assoc([a[0].record] + a[0].stream.rest, Pending(a[1..]), Pending(b));
    }
  }

  lemma PendingOne(c: Cursor)
    ensures Pending([c]) == [c.record] + c.stream.rest
  {
    assert [c][1..] == [];
  }

  /** r is at most everything to come when it is at most every cursor's record. */
  lemma {:induction false} FirstOfPending(heap: seq<Cursor>, r: Record)
    requires CursorsSorted(heap) && forall i | 0 <= i < |heap| :: AtMost(r, heap[i].record)
    ensures AllFrom(r, Pending(heap))
  {
    if heap != [] {
      FirstOfPending(heap[1..], r);
      var first := [heap[0].record] + heap[0].stream.rest;
      forall i | 0 <= i < |first| ensures AtMost(r, first[i]) {
        assert AtMost(first[0], first[i]);
        RecordTransitive(r, first[0], first[i]);
      }
    }
  }

  /** Taking a least record out takes the head off the sorted list. */
  lemma TakeFirst(all: seq<Record>, r: Record, rest: seq<Record>)
    requires multiset(all) == multiset{r} + multiset(rest) && AllFrom(r, rest)
    ensures Arranged(all) == [r] + Arranged(rest)
  {
    var left := Arranged(rest);
    forall i | 0 <= i < |left| ensures AtMost(r, left[i]) {
      assert left[i] in multiset(rest);
    }
    SortedCons(r, left);
    SortedUnique(Arranged(all), [r] + left);
  }

  /** The index heap.Pop removes: a least cursor. */
  method Least(heap: seq<Cursor>) returns (m: nat)
    requires heap != []
    ensures m < |heap| && forall i | 0 <= i < |heap| :: AtMost(heap[m].record, heap[i].record)
  {
    m := 0;
    for k := 1 to |heap|
      invariant m < |heap| && forall i | 0 <= i < k :: AtMost(heap[m].record, heap[i].record)
    {
      RecordTotal(heap[m].record, heap[k].record);
      if CursorLess(heap[k], heap[m]) {
        RecordTotal(heap[k].record, heap[m].record);
        forall i | 0 <= i < k ensures AtMost(heap[k].record, heap[i].record) {
          RecordTransitive(heap[k].record, heap[m].record, heap[i].record);
        }
        m := k;
      }
    }
  }

  /** The cursor at its stream's next record, if there is one. */
  function Moved(c: Cursor): (next: seq<Cursor>)
    ensures Pending(next) == c.stream.rest
  {
    var rest := c.stream.rest;
    if rest == [] then []
    else
      var next := Cursor(rest[0], Stream(rest[1..], c.stream.broken), c.order);
      PendingOne(next);
      [next]
  }

  lemma MovedSorted(c: Cursor)
    requires Sorted([c.record] + c.stream.rest)
    ensures CursorsSorted(Moved(c)) && forall i | 0 <= i < |Moved(c)| :: AtMost(c.record, Moved(c)[i].record)
  {
    var before := [c.record] + c.stream.rest;
    assert before[1..] == c.stream.rest;
    if c.stream.rest != [] {
      assert before[0] == c.record && before[1] == c.stream.rest[0];
      assert [c.stream.rest[0]] + c.stream.rest[1..] == c.stream.rest;
    }
  }

  /** The reader's Next. */
  function ReadNext(c: Cursor): Read
  {
    if c.stream.rest != [] then Yield(c.stream.rest[0]) else if c.stream.broken then Error else End
  }

  function Without(heap: seq<Cursor>, m: nat): seq<Cursor>
    requires m < |heap|
  {
    heap[..m] + heap[m + 1..]
  }

  lemma WithoutPending(heap: seq<Cursor>, m: nat)
    requires m < |heap|
    ensures multiset(Pending(heap)) ==
            multiset{heap[m].record} + multiset(heap[m].stream.rest) + multiset(Pending(Without(heap, m)))
  {
    var front, cursor, back := heap[..m], heap[m], heap[m + 1..];
    assert heap == front + ([cursor] + back);
    PendingAppend(front, [cursor] + back);
    PendingAppend([cursor], back);
    PendingAppend(front, back);
    PendingOne(cursor);
  }

  /** The heap once cursor m has moved on. */
  function Advanced(heap: seq<Cursor>, m: nat): seq<Cursor>
    requires m < |heap|
  {
    Without(heap, m) + Moved(heap[m])
  }

  lemma AdvancedPending(heap: seq<Cursor>, m: nat)
    requires m < |heap|
    ensures multiset(Pending(heap)) == multiset{heap[m].record} + multiset(Pending(Advanced(heap, m)))
  {
    WithoutPending(heap, m);
    PendingAppend(Without(heap, m), Moved(heap[m]));
  }

  lemma AdvancedSorted(heap: seq<Cursor>, m: nat)
    requires m < |heap| && CursorsSorted(heap) && forall i | 0 <= i < |heap| :: AtMost(heap[m].record, heap[i].record)
    ensures CursorsSorted(Without(heap, m)) && CursorsSorted(Advanced(heap, m))
    ensures forall i | 0 <= i < |Advanced(heap, m)| :: AtMost(heap[m].record, Advanced(heap, m)[i].record)
  {
    MovedSorted(heap[m]);
  }

  predicate AllSound(heap: seq<Cursor>)
  {
    forall i | 0 <= i < |heap| :: !heap[i].stream.broken
  }

  lemma AdvancedSound(heap: seq<Cursor>, m: nat)
    requires m < |heap|
    ensures AllSound(heap) ==> AllSound(Advanced(heap, m)) && !ReadNext(heap[m]).Error?
  {
  }

  lemma AdvancedLeft(heap: seq<Cursor>, m: nat)
    requires m < |heap| && CursorsSorted(heap) && forall i | 0 <= i < |heap| :: AtMost(heap[m].record, heap[i].record)
    ensures CursorsSorted(Without(heap, m)) && CursorsSorted(Advanced(heap, m))
    ensures Arranged(Pending(heap)) == [heap[m].record] + Arranged(Pending(Advanced(heap, m)))
  {
    AdvancedPending(heap, m);
    AdvancedSorted(heap, m);
    FirstOfPending(Advanced(heap, m), heap[m].record);
    TakeFirst(Pending(heap), heap[m].record, Pending(Advanced(heap, m)));
  }

  class Merged {
    var heap: seq<Cursor>

    ghost predicate Valid()
      reads this
    {
      CursorsSorted(heap)
    }

    /** No stream ends in an error. */
    ghost predicate Sound()
      reads this
    {
      AllSound(heap)
    }

    /** What is to come, in order. */
    ghost function Left(): seq<Record>
      reads this
    {
      Arranged(Pending(heap))
    }

    constructor ()
      ensures heap == []
    {
      heap := [];
    }

    /** Pops a least cursor and puts it back at its stream's next record. */
    method Next() returns (r: Read)
      requires Valid()
      modifies this
      ensures Valid() && (old(Sound()) ==> Sound() && !r.Error?)
      ensures r.End? ==> old(Left()) == [] && Left() == []
      ensures r.Yield? ==> old(Left()) == [r.record] + Left()
    {
      if heap == [] {
        return End;
      }
      var m := Least(heap);
      AdvancedLeft(heap, m);
      AdvancedSound(heap, m);
      ghost var advanced := Advanced(heap, m);
      var cursor := heap[m];
      heap := Without(heap, m);
      var next := ReadNext(cursor);
      if next.Error? {
        return Error;
      }
      if next.Yield? {
        heap := heap + [Cursor(next.record, Stream(cursor.stream.rest[1..], cursor.stream.broken), cursor.order)];
      }
      assert heap == advanced;
      r := Yield(cursor.record);
    }
  }

  /** Everything the streams hold. */
  function Held(streams: seq<Stream>): seq<Record>
  {
    if streams == [] then [] else Held(streams[..|streams| - 1]) + streams[|streams| - 1].rest
  }

  lemma Pushes(heap: seq<Cursor>, next: Cursor, stream: Stream)
    requires CursorsSorted(heap) && Sorted(stream.rest) && stream.rest != []
    requires next.record == stream.rest[0] && next.stream == Stream(stream.rest[1..], stream.broken)
    ensures CursorsSorted(heap + [next]) && Pending(heap + [next]) == Pending(heap) + stream.rest
    ensures AllSound(heap) && !stream.broken ==> AllSound(heap + [next])
  {
    PendingOne(next);
    PendingAppend(heap, [next]);
    assert [next.record] + next.stream.rest == stream.rest;
  }

  /** openMergedIntermediate: one cursor for each stream that is not empty. */
  method Open(streams: seq<Stream>) returns (r: Outcome<Merged>)
    requires forall i | 0 <= i < |streams| :: Sorted(streams[i].rest)
    ensures r.Ok? ==> fresh(r.value) && r.value.Valid() && r.value.Left() == Arranged(Held(streams))
    ensures (forall i | 0 <= i < |streams| :: !streams[i].broken) ==> r.Ok? && r.value.Sound()
  {
    var merged := new Merged();
    for i := 0 to |streams|
      invariant fresh(merged) && merged.Valid() && Pending(merged.heap) == Held(streams[..i])
      invariant (forall k | 0 <= k < i :: !streams[k].broken) ==> merged.Sound()
    {
      assert streams[..i + 1][..i] == streams[..i];
      var cursor := Cursor(Record([], [], []), streams[i], i);
      var first := ReadNext(cursor);
      if first.Error? {
        return Failed;
      }
      if first.Yield? {
        var next := Cursor(first.record, Stream(streams[i].rest[1..], streams[i].broken), i);
        Pushes(merged.heap, next, streams[i]);
        merged.heap := merged.heap + [next];
      }
    }
    assert streams[..|streams|] == streams;
    r := Ok(merged);
  }
}
