/** The shuffle as a whole: partitioning, merging and reducing by partition, then
    merging the partitions, is grouping everything that was emitted by key. */
module Shuffle {
  import Seqs
  import opened Texts
  import opened Records
  import opened Outcomes
  import opened Combining
  import opened Grouping
  import opened Results

  // ---------------------------------------------------------------- one key of a collection

  function OfKey(records: seq<Record>, k: Text): seq<Record>
  {
    if records == [] then []
    else (if records[0].primary == k then [records[0]] else []) + OfKey(records[1..], k)
  }

  lemma {:induction false} OfKeyValues(records: seq<Record>, k: Text)
    ensures Values(OfKey(records, k)) == ValuesOf(records, k)
  {
    if records != [] {
      OfKeyValues(records[1..], k);
    }
  }

  lemma {:induction false} OfKeyCount(records: seq<Record>, k: Text, r: Record)
    ensures multiset(OfKey(records, k))[r] == if r.primary == k then multiset(records)[r] else 0
  {
    if records != [] {
      OfKeyCount(records[1..], k, r);
      HeadTail(records);
    }
  }

  lemma {:induction false} OfKeySorted(records: seq<Record>, k: Text)
    requires Sorted(records)
    ensures Sorted(OfKey(records, k))
  {
    if records != [] {
      OfKeySorted(records[1..], k);
      var rest := OfKey(records[1..], k);
      forall i | 0 <= i < |rest| ensures AtMost(records[0], rest[i]) {
        OfKeyCount(records[1..], k, rest[i]);
        assert rest[i] in multiset(rest);
        assert rest[i] in records[1..];
      }
    }
  }

  /** a and b hold the same records of key k. */
  ghost predicate Alike(a: seq<Record>, b: seq<Record>, k: Text)
  {
    forall r: Record | r.primary == k :: multiset(a)[r] == multiset(b)[r]
  }

  /** Sorted, they give a reducer the same values in the same order. */
  lemma AlikeValues(a: seq<Record>, b: seq<Record>, k: Text)
    requires Alike(a, b, k)
    ensures ValuesOf(Arranged(a), k) == ValuesOf(Arranged(b), k)
  {
    var x, y := OfKey(Arranged(a), k), OfKey(Arranged(b), k);
    OfKeySorted(Arranged(a), k);
    OfKeySorted(Arranged(b), k);
    forall r ensures multiset(x)[r] == multiset(y)[r] {
      OfKeyCount(Arranged(a), k, r);
      OfKeyCount(Arranged(b), k, r);
    }
    assert multiset(x) == multiset(y);
    SortedUnique(x, y);
    OfKeyValues(Arranged(a), k);
    OfKeyValues(Arranged(b), k);
  }

  // ---------------------------------------------------------------- partitions

  /** parts share out all by key: partition p has every record whose key's shard is p. */
  ghost predicate SharedOut(all: seq<Record>, parts: seq<seq<Record>>, shard: Text -> nat)
  {
    && (forall k :: shard(k) < |parts|)
    && (forall p, r: Record | 0 <= p < |parts| ::
          multiset(parts[p])[r] == if shard(r.primary) == p then multiset(all)[r] else 0)
  }

  lemma SharedValues(all: seq<Record>, parts: seq<seq<Record>>, shard: Text -> nat, p: nat, k: Text)
    requires SharedOut(all, parts, shard) && p < |parts|
    ensures ValuesOf(Arranged(parts[p]), k) == if shard(k) == p then ValuesOf(Arranged(all), k) else []
  {
    if shard(k) == p {
      AlikeValues(parts[p], all, k);
    } else {
      AlikeValues(parts[p], [], k);
    }
  }

  /** Each partition's output is the part of the whole output that it owns. */
  ghost predicate Owns(values: Text -> seq<Text>, shard: Text -> nat, red: Reducer, p: nat, out: seq<KV>)
  {
    GroupsBy(k => if shard(k) == p then values(k) else [], red, out)
  }

  lemma PartitionOwns(all: seq<Record>, parts: seq<seq<Record>>, shard: Text -> nat, red: Reducer, p: nat)
    requires SharedOut(all, parts, shard) && p < |parts| && Reduced(Arranged(parts[p]), red).Ok?
    ensures Owns(k => ValuesOf(Arranged(all), k), shard, red, p, Reduced(Arranged(parts[p]), red).value)
  {
    ReducedGroups(Arranged(parts[p]), red);
    var here: Text -> seq<Text> := k => ValuesOf(Arranged(parts[p]), k);
    var owned: Text -> seq<Text> := k => if shard(k) == p then ValuesOf(Arranged(all), k) else [];
    forall k ensures here(k) == owned(k) {
      SharedValues(all, parts, shard, p, k);
    }
    var out := Reduced(Arranged(parts[p]), red).value;
    SameGroups(here, owned, red, out);
    var values: Text -> seq<Text> := k => ValuesOf(Arranged(all), k);
    SameGroups(owned, k => if shard(k) == p then values(k) else [], red, out);
  }

  lemma SameGroups(a: Text -> seq<Text>, b: Text -> seq<Text>, red: Reducer, out: seq<KV>)
    requires GroupsBy(a, red, out) && forall k :: a(k) == b(k)
    ensures GroupsBy(b, red, out)
  {
  }

  // ---------------------------------------------------------------- all partitions

  lemma {:induction false} InAll(outs: seq<seq<KV>>, kv: KV)
    requires kv in All(outs)
    ensures exists p :: 0 <= p < |outs| && kv in outs[p]
  {
    if outs != [] {
      if kv in outs[0] {
      } else {
        InAll(outs[1..], kv);
        var p :| 0 <= p < |outs[1..]| && kv in outs[1..][p];
        assert kv in outs[p + 1];
      }
    }
  }

  lemma {:induction false} NotInAll(outs: seq<seq<KV>>, kv: KV)
    requires forall i | 0 <= i < |outs| :: kv !in outs[i]
    ensures kv !in All(outs)
  {
    if outs != [] {
      assert kv !in outs[0];
      NotInAll(outs[1..], kv);
    }
  }

  lemma {:induction false} AllHas(outs: seq<seq<KV>>, kv: KV, p: nat)
    requires p < |outs| && kv in outs[p]
    ensures kv in All(outs)
  {
    if p > 0 {
      AllHas(outs[1..], kv, p - 1);
    }
  }

  lemma {:induction false} Once(out: seq<KV>, kv: KV)
    requires Increasing(out)
    ensures multiset(out)[kv] <= 1
  {
    if out != [] {
      Once(out[1..], kv);
      assert out == [out[0]] + out[1..];
      if kv == out[0] {
        forall i | 0 <= i < |out[1..]| ensures out[1..][i] != kv {
          LessIrreflexive(kv.key);
        }
      }
    }
  }

  /** A pair that only one partition can hold comes out at most once. */
  lemma {:induction false} OnceInAll(outs: seq<seq<KV>>, kv: KV, p: nat)
    requires forall i | 0 <= i < |outs| :: Increasing(outs[i])
    requires forall i | 0 <= i < |outs| && kv in outs[i] :: i == p
    ensures All(outs)[kv] <= 1
  {
    if outs != [] {
      Once(outs[0], kv);
      if p == 0 {
        forall i | 0 <= i < |outs[1..]| ensures kv !in outs[1..][i] {
          assert outs[1..][i] == outs[i + 1];
        }
        NotInAll(outs[1..], kv);
      } else {
        forall i | 0 <= i < |outs[1..]| && kv in outs[1..][i] ensures i == p - 1 {
          assert kv in outs[i + 1];
        }
        OnceInAll(outs[1..], kv, p - 1);
      }
    }
  }

  /** What the merge of the partitions' outputs is known to be. */
  ghost predicate MergeOf(outs: seq<seq<KV>>, final: seq<KV>)
  {
    multiset(final) == All(outs) && (RunsSorted(outs) ==> KeySorted(final))
  }

  lemma IncreasingSorted(out: seq<KV>)
    requires Increasing(out)
    ensures KeySorted(out)
  {
    forall i, j | 0 <= i < j < |out| ensures NoneBefore(out[i], out[j]) {
      LessAsymmetric(out[i].key, out[j].key);
    }
  }

  ghost predicate AllOwn(values: Text -> seq<Text>, shard: Text -> nat, red: Reducer, outs: seq<seq<KV>>)
  {
    && (forall k :: shard(k) < |outs|)
    && (forall p | 0 <= p < |outs| :: Owns(values, shard, red, p, outs[p]))
  }

  /** A pair of the merge belongs to its key's partition, and answers for its key. */
  lemma PairOwned(values: Text -> seq<Text>, shard: Text -> nat, red: Reducer, outs: seq<seq<KV>>, final: seq<KV>,
                  i: nat)
    requires AllOwn(values, shard, red, outs) && multiset(final) == All(outs) && i < |final|
    ensures values(final[i].key) != [] && Answer(red, final[i].key, values(final[i].key)) == Ok(final[i].value)
    ensures forall p | 0 <= p < |outs| && final[i] in outs[p] :: p == shard(final[i].key)
  {
    var kv := final[i];
    assert kv in multiset(final);
    InAll(outs, kv);
    forall p | 0 <= p < |outs| && kv in outs[p]
      ensures p == shard(kv.key) && values(kv.key) != [] && Answer(red, kv.key, values(kv.key)) == Ok(kv.value)
    {
      assert Owns(values, shard, red, p, outs[p]);
      var j :| 0 <= j < |outs[p]| && outs[p][j] == kv;
      assert HasKey(outs[p], kv.key);
    }
  }

  lemma MergeKeys(values: Text -> seq<Text>, shard: Text -> nat, red: Reducer, outs: seq<seq<KV>>, final: seq<KV>,
                  k: Text)
    requires AllOwn(values, shard, red, outs) && multiset(final) == All(outs)
    ensures values(k) != [] <==> HasKey(final, k)
  {
    if HasKey(final, k) {
      var i :| 0 <= i < |final| && final[i].key == k;
      PairOwned(values, shard, red, outs, final, i);
    }
    if values(k) != [] {
      var p := shard(k);
      assert Owns(values, shard, red, p, outs[p]);
      assert HasKey(outs[p], k);
      var j :| 0 <= j < |outs[p]| && outs[p][j].key == k;
      AllHas(outs, outs[p][j], p);
      assert outs[p][j] in multiset(final);
    }
  }

  lemma MergeIncreases(values: Text -> seq<Text>, shard: Text -> nat, red: Reducer, outs: seq<seq<KV>>, final: seq<KV>,
                       i: nat, j: nat)
    requires AllOwn(values, shard, red, outs) && multiset(final) == All(outs) && KeySorted(final) && i < j < |final|
    ensures Less(final[i].key, final[j].key)
  {
    PairOwned(values, shard, red, outs, final, i);
    PairOwned(values, shard, red, outs, final, j);
    LessTotal(final[i].key, final[j].key);
    assert NoneBefore(final[i], final[j]);
    if final[i].key == final[j].key {
      assert final[i] == final[j];
      Seqs.Twice(final, i, j);
      forall p | 0 <= p < |outs| ensures Increasing(outs[p]) {
        assert Owns(values, shard, red, p, outs[p]);
      }
      OnceInAll(outs, final[i], shard(final[i].key));
    }
  }

  /** Merging the partitions' outputs groups everything by key. */
  lemma MergeGroups(values: Text -> seq<Text>, shard: Text -> nat, red: Reducer, outs: seq<seq<KV>>, final: seq<KV>)
    requires AllOwn(values, shard, red, outs) && MergeOf(outs, final)
    ensures GroupsBy(values, red, final)
  {
    forall p | 0 <= p < |outs| ensures KeySorted(outs[p]) {
      assert Owns(values, shard, red, p, outs[p]);
      IncreasingSorted(outs[p]);
    }
    forall i, j | 0 <= i < j < |final| ensures Less(final[i].key, final[j].key) {
      MergeIncreases(values, shard, red, outs, final, i, j);
    }
    forall i | 0 <= i < |final| ensures Answer(red, final[i].key, values(final[i].key)) == Ok(final[i].value) {
      PairOwned(values, shard, red, outs, final, i);
    }
    forall k ensures values(k) != [] <==> HasKey(final, k) {
      MergeKeys(values, shard, red, outs, final, k);
    }
  }

  /** Reducing partition by partition and merging gives what reducing everything
      at once gives. */
  lemma ShuffleIsGroupBy(all: seq<Record>, parts: seq<seq<Record>>, shard: Text -> nat, red: Reducer,
                         outs: seq<seq<KV>>, final: seq<KV>)
    requires SharedOut(all, parts, shard) && |outs| == |parts| && MergeOf(outs, final)
    requires forall p | 0 <= p < |parts| :: Reduced(Arranged(parts[p]), red) == Ok(outs[p])
    ensures Reduced(Arranged(all), red) == Ok(final)
    ensures GroupsBy(k => ValuesOf(Arranged(all), k), red, final)
  {
    var values := k => ValuesOf(Arranged(all), k);
    forall p | 0 <= p < |outs| ensures Owns(values, shard, red, p, outs[p]) {
      PartitionOwns(all, parts, shard, red, p);
    }
    MergeGroups(values, shard, red, outs, final);
    ReducedFails(Arranged(all), red);
    forall k ensures !Fails(Arranged(all), red, k) {
      if values(k) != [] {
        assert HasKey(final, k);
      }
    }
    ReducedGroups(Arranged(all), red);
    GroupsUnique(values, red, final, Reduced(Arranged(all), red).value);
  }
}
