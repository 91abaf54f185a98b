/** Serving a merged stream to a reducer one key at a time. */
module Grouping {
  import opened Texts
  import opened Records
  import opened Outcomes
  import opened Combining
  import opened Merging

  datatype KV = KV(key: Text, value: Text)

  /** A reducer reads values until it chooses to stop, then answers from what it
      has read. Both choices may depend on everything read so far. */
  datatype Reducer = Reducer(stop: (Text, seq<Text>) -> bool, answer: (Text, seq<Text>) -> Outcome<Text>)

  /** What the reducer reads of a key's values: up to where it stops. */
  function Taken(red: Reducer, key: Text, values: seq<Text>, n: nat): seq<Text>
    requires n <= |values|
    decreases |values| - n
  {
    if n == |values| || red.stop(key, values[..n]) then values[..n] else Taken(red, key, values, n + 1)
  }

  /** The answer for a key, given all of its values. */
  function Answer(red: Reducer, key: Text, values: seq<Text>): Outcome<Text>
  {
    red.answer(key, Taken(red, key, values, 0))
  }

  function Follow(out: seq<KV>, rest: Outcome<seq<KV>>): Outcome<seq<KV>>
  {
    match rest
    case Ok(more) => Ok(out + more)
    case Failed => Failed
  }

  lemma FollowAgain(a: seq<KV>, b: seq<KV>, rest: Outcome<seq<KV>>)
    ensures Follow(a, Follow(b, rest)) == Follow(a + b, rest) && Follow([], rest) == rest
  {
    if rest.Ok? {
      assert a + (b + rest.value) == (a + b) + rest.value && [] + rest.value == rest.value;
    }
  }

  /** What reducing a sorted stream comes to. */
  function Reduced(records: seq<Record>, red: Reducer): Outcome<seq<KV>>
  {
    if records == [] then Ok([])
    else
      var n := KeyEnd(records);
      match Answer(red, records[0].primary, Values(records[..n]))
      case Failed => Failed
      case Ok(value) => Follow([KV(records[0].primary, value)], Reduced(records[n..], red))
  }

  /** groupedIntermediate. */
  class Grouped {
    const merged: Merged
    var peek: Record
    var have: bool
    var failed: bool

    constructor (merged: Merged)
      requires merged.Valid()
      ensures this.merged == merged && Valid() && !failed && Left() == merged.Left()
      ensures merged.Sound() ==> Sound()
    {
      this.merged := merged;
      peek, have, failed := Record([], [], []), false, false;
    }

    ghost predicate Valid()
      reads this, merged
    {
      merged.Valid()
    }

    ghost predicate Sound()
      reads this, merged
    {
      merged.Sound() && !failed
    }

    /** What is to come. */
    ghost function Left(): seq<Record>
      reads this, merged
    {
      if have then [peek] + merged.Left() else merged.Left()
    }

    method Load() returns (ok: bool)
      requires Valid()
      modifies this, merged
      ensures Valid() && (old(Sound()) ==> Sound()) && (old(failed) ==> failed)
      ensures !failed ==> Left() == old(Left())
      ensures if ok then have && failed == old(failed) && Left() == old(Left()) && Left() == [peek] + merged.Left()
              else failed || Left() == []
    {
      if have {
        return true;
      }
      if failed {
        return false;
      }
      var r := merged.Next();
      if !r.Yield? {
        failed := r.Error?;
        return false;
      }
      peek, have := r.record, true;
      ok := true;
    }

    method NextGroup() returns (g: Option<Group>)
      requires Valid()
      modifies this, merged
      ensures Valid() && (old(Sound()) ==> Sound()) && (old(failed) ==> failed)
      ensures !failed ==> Left() == old(Left())
      ensures g.None? ==> failed || Left() == []
      ensures g.Some? ==> fresh(g.value) && g.value.stream == this && failed == old(failed)
                          && Left() != [] && Left() == old(Left()) && g.value.key == Left()[0].primary
    {
      var ok := Load();
      if !ok {
        return None;
      }
      var group := new Group(this, peek.primary);
      g := Some(group);
    }
  }

  /** intermediateGroup. */
  class Group {
    const stream: Grouped
    const key: Text
    var current: Record

    constructor (stream: Grouped, key: Text)
      ensures this.stream == stream && this.key == key
    {
      this.stream, this.key, current := stream, key, Record([], [], []);
    }

    /** Moves on to the key's next value, if it has one. */
    method Next() returns (ok: bool)
      requires stream.Valid()
      modifies this, stream, stream.merged
      ensures stream.Valid() && (old(stream.Sound()) ==> stream.Sound()) && (old(stream.failed) ==> stream.failed)
      ensures ok ==> old(stream.Left()) == [current] + stream.Left() && current.primary == key
      ensures ok ==> stream.failed == old(stream.failed)
      ensures !ok ==> stream.failed
                      || (stream.Left() == old(stream.Left()) &&
                          (stream.Left() == [] || stream.Left()[0].primary != key))
    {
      var loaded := stream.Load();
      if !loaded || stream.peek.primary != key {
        return false;
      }
      current := stream.peek;
      stream.have := false;
      ok := true;
    }
  }

  /** The first n records are those of the first key. */
  predicate WholeKey(records: seq<Record>, n: nat)
  {
    && 0 < n <= |records|
    && (forall i | 0 <= i < n :: records[i].primary == records[0].primary)
    && (n < |records| ==> records[n].primary != records[0].primary)
  }

  /** A key of n values, of which read have been served. */
  ghost predicate Serving(stream: Grouped, records: seq<Record>, n: nat, read: nat)
    reads stream, stream.merged
  {
    WholeKey(records, n) && read <= n && stream.Left() == records[read..]
  }

  /** The next value is there exactly while the key lasts. */
  method NextValue(g: Group, ghost records: seq<Record>, ghost n: nat, ghost read: nat) returns (ok: bool)
    requires g.stream.Valid() && !g.stream.failed && Serving(g.stream, records, n, read) && g.key == records[0].primary
    modifies g, g.stream, g.stream.merged
    ensures g.stream.Valid() && (old(g.stream.Sound()) ==> g.stream.Sound())
    ensures ok ==> !g.stream.failed && read < n && g.current == records[read] && Serving(g.stream, records, n, read + 1)
    ensures !ok && !g.stream.failed ==> read == n && Serving(g.stream, records, n, n)
  {
    ghost var left := g.stream.Left();
    ok := g.Next();
    if ok {
      Unserved(records, read, left, g.current, g.stream.Left());
    }
  }

  lemma Unserved(records: seq<Record>, read: nat, left: seq<Record>, first: Record, rest: seq<Record>)
    requires read <= |records| && left == records[read..] && left == [first] + rest
    ensures read < |records| && first == records[read] && rest == records[read + 1..]
  {
    assert left[0] == first && left[1..] == rest;
  }

  /** The reducer's own loop over its input. */
  method ReadValues(g: Group, red: Reducer, ghost records: seq<Record>, ghost n: nat) returns (taken: seq<Text>)
    requires g.stream.Valid() && !g.stream.failed && Serving(g.stream, records, n, 0) && g.key == records[0].primary
    modifies g, g.stream, g.stream.merged
    ensures g.stream.Valid() && (old(g.stream.Sound()) ==> g.stream.Sound())
    ensures !g.stream.failed ==>
            Serving(g.stream, records, n, |taken|) && taken == Taken(red, g.key, Values(records[..n]), 0)
  {
    ghost var values := Values(records[..n]);
    taken := [];
    while !red.stop(g.key, taken)
      invariant g.stream.Valid() && (old(g.stream.Sound()) ==> g.stream.Sound()) && !g.stream.failed
      invariant Serving(g.stream, records, n, |taken|) && Reading(red, g.key, values, taken)
      decreases |values| - |taken|
    {
      var ok := NextValue(g, records, n, |taken|);
      if !ok {
        if !g.stream.failed {
          ReadingEnds(red, g.key, values, taken);
        }
        return;
      }
      ReadingOn(red, g.key, values, taken);
      taken := taken + [g.current.value];
    }
    ReadingEnds(red, g.key, values, taken);
  }

  /** taken is a part of what the reducer reads of values. */
  predicate Reading(red: Reducer, key: Text, values: seq<Text>, taken: seq<Text>)
  {
    taken <= values && Taken(red, key, values, 0) == Taken(red, key, values, |taken|)
  }

  lemma ReadingOn(red: Reducer, key: Text, values: seq<Text>, taken: seq<Text>)
    requires Reading(red, key, values, taken) && !red.stop(key, taken) && |taken| < |values|
    ensures Reading(red, key, values, taken + [values[|taken|]])
  {
    assert values[..|taken|] == taken;
  }

  lemma ReadingEnds(red: Reducer, key: Text, values: seq<Text>, taken: seq<Text>)
    requires Reading(red, key, values, taken) && (red.stop(key, taken) || |taken| == |values|)
    ensures taken == Taken(red, key, values, 0)
  {
    assert values[..|taken|] == taken;
  }

  /** drain: whatever the reducer left of its key. */
  method Drain(g: Group, ghost records: seq<Record>, ghost n: nat, ghost read: nat)
    requires g.stream.Valid() && !g.stream.failed && Serving(g.stream, records, n, read) && g.key == records[0].primary
    modifies g, g.stream, g.stream.merged
    ensures g.stream.Valid() && (old(g.stream.Sound()) ==> g.stream.Sound())
    ensures !g.stream.failed ==> Serving(g.stream, records, n, n)
  {
    ghost var i := read;
    var more := NextValue(g, records, n, i);
    while more
      invariant g.stream.Valid() && (old(g.stream.Sound()) ==> g.stream.Sound())
      invariant more ==> !g.stream.failed && i < n && Serving(g.stream, records, n, i + 1)
      invariant !more && !g.stream.failed ==> Serving(g.stream, records, n, n)
      decreases more, n - i
    {
      i := i + 1;
      more := NextValue(g, records, n, i);
    }
  }

  /** One key: read, answer, drain. */
  method ReduceKey(g: Group, red: Reducer, ghost records: seq<Record>) returns (r: Outcome<Text>)
    requires g.stream.Valid() && !g.stream.failed && records != [] && g.stream.Left() == records &&
             g.key == records[0].primary
    modifies g, g.stream, g.stream.merged
    ensures g.stream.Valid() && (old(g.stream.Sound()) ==> g.stream.Sound())
    ensures r.Ok? ==> !g.stream.failed && g.stream.Left() == records[KeyEnd(records)..]
    ensures r.Ok? || old(g.stream.Sound()) ==> r == Answer(red, g.key, Values(records[..KeyEnd(records)]))
  {
    ghost var n := KeyEnd(records);
    assert records[0..] == records;
    var taken := ReadValues(g, red, records, n);
    r := red.answer(g.key, taken);
    if r.Failed? || g.stream.failed {
      return Failed;
    }
    Drain(g, records, n, |taken|);
    if g.stream.failed {
      return Failed;
    }
  }

  /** reduceIntermediate: a stream that breaks fails the reduction, so an answer
      always comes from the whole of the stream. */
  method Reduce(merged: Merged, red: Reducer) returns (r: Outcome<seq<KV>>)
    requires merged.Valid()
    modifies merged
    ensures r.Ok? || old(merged.Sound()) ==> r == Reduced(old(merged.Left()), red)
  {
    var stream := new Grouped(merged);
    var out := [];
    ghost var all := merged.Left();
    FollowAgain([], [], Reduced(all, red));
    while true
      invariant stream.merged == merged && stream.Valid() && !stream.failed && fresh(stream)
      invariant old(merged.Sound()) ==> stream.Sound()
      invariant Reduced(all, red) == Follow(out, Reduced(stream.Left(), red))
      decreases |stream.Left()|
    {
      ghost var records := stream.Left();
      var g := stream.NextGroup();
      if g.None? {
        if stream.failed {
          return Failed;
        }
        assert out + [] == out;
        return Ok(out);
      }
      var value := ReduceKey(g.value, red, records);
      if value.Failed? {
        return Failed;
      }
      FollowAgain(out, [KV(g.value.key, value.value)], Reduced(stream.Left(), red));
      out := out + [KV(g.value.key, value.value)];
    }
  }

  // ---------------------------------------------------------------- what reducing means

  predicate Increasing(out: seq<KV>)
  {
    forall i, j | 0 <= i < j < |out| :: Less(out[i].key, out[j].key)
  }

  predicate HasKey(out: seq<KV>, k: Text)
  {
    exists i | 0 <= i < |out| :: out[i].key == k
  }

  /** The group-by of a collection in which key k has values values(k): every key
      once, in increasing order, each with the answer for all of its values. */
  ghost predicate GroupsBy(values: Text -> seq<Text>, red: Reducer, out: seq<KV>)
  {
    && Increasing(out)
    && (forall i | 0 <= i < |out| :: Answer(red, out[i].key, values(out[i].key)) == Ok(out[i].value))
    && (forall k :: values(k) != [] <==> HasKey(out, k))
  }

  /** The keys of a sorted stream's rest come after its first key. */
  lemma RestAfter(records: seq<Record>, k: Text)
    requires Sorted(records) && records != [] && ValuesOf(records[KeyEnd(records)..], k) != []
    ensures Less(records[0].primary, k)
  {
    var rest := records[KeyEnd(records)..];
    if forall i | 0 <= i < |rest| :: rest[i].primary != k {
      NoValues(rest, k);
    } else {
      var i :| 0 <= i < |rest| && rest[i].primary == k;
      LaterKeys(records);
      assert records[KeyEnd(records) + i].primary == k;
    }
  }

  lemma SplitValues(records: seq<Record>, k: Text)
    requires Sorted(records) && records != []
    ensures var n := KeyEnd(records);
            ValuesOf(records, k) == if k == records[0].primary then Values(records[..n]) else ValuesOf(records[n..], k)
  {
    var n := KeyEnd(records);
    assert records == records[..n] + records[n..];
    ValuesAppend(records[..n], records[n..], k);
    FirstHas(records, k);
    if k == records[0].primary {
      ValuesOfKey(records[..n], k);
      assert Values(records[..n]) + [] == Values(records[..n]);
    } else {
      assert [] + ValuesOf(records[n..], k) == ValuesOf(records[n..], k);
    }
  }

  /** rest is values without its first key, and with that key's answer in front of
      out, out covers values. */
  lemma GroupsGrow(values: Text -> seq<Text>, rest: Text -> seq<Text>, red: Reducer, out: seq<KV>, first: KV)
    requires GroupsBy(rest, red, out) && values(first.key) != []
    requires Answer(red, first.key, values(first.key)) == Ok(first.value)
    requires forall k | k != first.key :: values(k) == rest(k)
    requires forall k | rest(k) != [] :: Less(first.key, k)
    ensures GroupsBy(values, red, [first] + out)
  {
    LessIrreflexive(first.key);
    var all := [first] + out;
    forall i | 0 <= i < |out| ensures Less(first.key, out[i].key) && out[i].key != first.key {
      assert HasKey(out, out[i].key);
    }
    forall k ensures values(k) != [] <==> HasKey(all, k) {
      if k == first.key {
        assert all[0].key == k;
      } else if HasKey(out, k) {
        var i :| 0 <= i < |out| && out[i].key == k;
        assert all[i + 1].key == k;
      }
    }
  }

  /** Reducing a sorted stream is grouping by key, however early the reducer
      stops reading a key. */
  lemma {:induction false} ReducedGroups(records: seq<Record>, red: Reducer)
    requires Sorted(records) && Reduced(records, red).Ok?
    ensures GroupsBy(k => ValuesOf(records, k), red, Reduced(records, red).value)
    decreases |records|
  {
    if records != [] {
      var n, key := KeyEnd(records), records[0].primary;
      var rest := records[n..];
      ReducedGroups(rest, red);
      FirstSplits(records);
      var answer := Answer(red, key, Values(records[..n]));
      GroupsGrow(k => ValuesOf(records, k), k => ValuesOf(rest, k), red, Reduced(rest, red).value,
                 KV(key, answer.value));
    }
  }

  lemma FirstSplits(records: seq<Record>)
    requires Sorted(records) && records != []
    ensures var n, key := KeyEnd(records), records[0].primary;
            && ValuesOf(records, key) == Values(records[..n]) && ValuesOf(records, key) != []
            && (forall k | k != key :: ValuesOf(records, k) == ValuesOf(records[n..], k))
            && (forall k | ValuesOf(records[n..], k) != [] :: Less(key, k))
  {
    var n, key := KeyEnd(records), records[0].primary;
    forall k ensures ValuesOf(records, k) == if k == key then Values(records[..n]) else ValuesOf(records[n..], k) {
      SplitValues(records, k);
    }
    forall k | ValuesOf(records[n..], k) != [] ensures Less(key, k) {
      RestAfter(records, k);
    }
  }

  ghost predicate Fails(records: seq<Record>, red: Reducer, k: Text)
  {
    ValuesOf(records, k) != [] && Answer(red, k, ValuesOf(records, k)).Failed?
  }

  /** It fails exactly when the answer for some key does. */
  lemma {:induction false} ReducedFails(records: seq<Record>, red: Reducer)
    requires Sorted(records)
    ensures Reduced(records, red).Failed? <==> exists k :: Fails(records, red, k)
    decreases |records|
  {
    if records != [] {
      var n, key := KeyEnd(records), records[0].primary;
      var rest := records[n..];
      ReducedFails(rest, red);
      FirstSplits(records);
      LessIrreflexive(key);
      assert Fails(records, red, key) <==> Answer(red, key, Values(records[..n])).Failed?;
      forall k | k != key ensures Fails(records, red, k) <==> Fails(rest, red, k) {
      }
      assert forall k :: Fails(rest, red, k) ==> Fails(records, red, k);
    }
  }

  /** A collection has one group-by. */
  lemma {:induction false} GroupsUnique(values: Text -> seq<Text>, red: Reducer, a: seq<KV>, b: seq<KV>)
    requires GroupsBy(values, red, a) && GroupsBy(values, red, b)
    ensures a == b
    decreases |a|
  {
    if a == [] || b == [] {
      assert forall k :: HasKey(a, k) <==> HasKey(b, k);
      assert a != [] ==> HasKey(a, a[0].key);
      assert b != [] ==> HasKey(b, b[0].key);
    } else {
      SameFirst(values, red, a, b);
      var first := a[0];
      var others := k => if k == first.key then [] else values(k);
      DropFirst(values, others, red, a);
      DropFirst(values, others, red, b);
      GroupsUnique(others, red, a[1..], b[1..]);
      assert a == [a[0]] + a[1..] && b == [b[0]] + b[1..];
    }
  }

  lemma SameFirst(values: Text -> seq<Text>, red: Reducer, a: seq<KV>, b: seq<KV>)
    requires GroupsBy(values, red, a) && GroupsBy(values, red, b) && a != [] && b != []
    ensures a[0] == b[0]
  {
    assert HasKey(a, a[0].key) && HasKey(b, b[0].key);
    assert HasKey(b, a[0].key) && HasKey(a, b[0].key);
    LessAsymmetric(a[0].key, b[0].key);
  }

  lemma DropFirst(values: Text -> seq<Text>, others: Text -> seq<Text>, red: Reducer, a: seq<KV>)
    requires GroupsBy(values, red, a) && a != []
    requires forall k :: others(k) == if k == a[0].key then [] else values(k)
    ensures GroupsBy(others, red, a[1..])
  {
    var rest := a[1..];
    LessIrreflexive(a[0].key);
    forall k ensures others(k) != [] <==> HasKey(rest, k) {
      if HasKey(rest, k) {
        var i :| 0 <= i < |rest| && rest[i].key == k;
        assert a[i + 1].key == k && Less(a[0].key, k);
        assert HasKey(a, k);
      }
      if HasKey(a, k) && k != a[0].key {
        var i :| 0 <= i < |a| && a[i].key == k;
        assert rest[i - 1].key == k;
      }
    }
  }
}
