/** Merging the partitions' outputs into one. */
module Results {
  import opened Texts
  import opened Records
  import opened Grouping

  /** The part of every run that the cursors have passed. */
  function Passed(runs: seq<seq<KV>>, cursors: seq<nat>): multiset<KV>
    requires |runs| == |cursors| && forall i | 0 <= i < |runs| :: cursors[i] <= |runs[i]|
  {
    if runs == [] then multiset{}
    else multiset(runs[0][..cursors[0]]) + Passed(runs[1..], cursors[1..])
  }

  /** Everything the runs hold. */
  function All(runs: seq<seq<KV>>): multiset<KV>
  {
    if runs == [] then multiset{} else multiset(runs[0]) + All(runs[1..])
  }

  lemma {:induction false} PassedNone(runs: seq<seq<KV>>, cursors: seq<nat>)
    requires |runs| == |cursors| && forall i | 0 <= i < |runs| :: cursors[i] == 0
    ensures Passed(runs, cursors) == multiset{}
  {
    if runs != [] {
      PassedNone(runs[1..], cursors[1..]);
    }
  }

  lemma {:induction false} PassedOne(runs: seq<seq<KV>>, cursors: seq<nat>, b: nat)
    requires |runs| == |cursors| && b < |runs| && cursors[b] < |runs[b]|
    requires forall i | 0 <= i < |runs| :: cursors[i] <= |runs[i]|
    ensures Passed(runs, cursors[b := cursors[b] + 1]) == Passed(runs, cursors) + multiset{runs[b][cursors[b]]}
  {
    var moved := cursors[b := cursors[b] + 1];
    if b == 0 {
      OneMore(runs[0], cursors[0]);
      assert moved[1..] == cursors[1..];
    } else {
      PassedOne(runs[1..], cursors[1..], b - 1);
      assert moved[1..] == cursors[1..][b - 1 := cursors[b] + 1];
      assert moved[0] == cursors[0];
    }
  }

  lemma OneMore(run: seq<KV>, n: nat)
    requires n < |run|
    ensures multiset(run[..n + 1]) == multiset(run[..n]) + multiset{run[n]}
  {
    assert run[..n + 1] == run[..n] + [run[n]];
  }

  /** Once as many are passed as there are, all are. */
  lemma {:induction false} PassedAll(runs: seq<seq<KV>>, cursors: seq<nat>)
    requires |runs| == |cursors| && forall i | 0 <= i < |runs| :: cursors[i] <= |runs[i]|
    ensures |Passed(runs, cursors)| <= |All(runs)|
    ensures |Passed(runs, cursors)| == |All(runs)| <==> forall i | 0 <= i < |runs| :: cursors[i] == |runs[i]|
    ensures |Passed(runs, cursors)| == |All(runs)| ==> Passed(runs, cursors) == All(runs)
  {
    if runs != [] {
      PassedAll(runs[1..], cursors[1..]);
      assert runs[0] == runs[0][..|runs[0]|];
      assert |multiset(runs[0][..cursors[0]])| == cursors[0];
      forall i | 1 <= i < |runs| ensures cursors[i] == cursors[1..][i - 1] && runs[i] == runs[1..][i - 1] {
      }
    }
  }

  predicate NoneBefore(a: KV, b: KV) { !Less(b.key, a.key) }

  lemma NoneBeforeTransitive(a: KV, b: KV, c: KV)
    requires NoneBefore(a, b) && NoneBefore(b, c)
    ensures NoneBefore(a, c)
  {
    LessTotal(a.key, b.key);
    LessTotal(b.key, c.key);
    if Less(c.key, a.key) {
      if Less(a.key, b.key) {
        LessTransitive(c.key, a.key, b.key);
      }
    }
  }

  predicate KeySorted(s: seq<KV>)
  {
    forall i, j | 0 <= i < j < |s| :: NoneBefore(s[i], s[j])
  }

  /** Nothing still to come belongs before what is out. */
  predicate Ahead(out: seq<KV>, runs: seq<seq<KV>>, cursors: seq<nat>)
    requires |runs| == |cursors|
  {
    forall i, j, k | 0 <= i < |runs| && cursors[i] <= j < |runs[i]| && 0 <= k < |out| :: NoneBefore(out[k], runs[i][j])
  }

  predicate InBounds(runs: seq<seq<KV>>, cursors: seq<nat>)
  {
    |runs| == |cursors| && forall i | 0 <= i < |runs| :: cursors[i] <= |runs[i]|
  }

  /** The run whose next pair has the least key; the first such run on a tie. */
  method Best(runs: seq<seq<KV>>, cursors: array<nat>) returns (best: int)
    requires InBounds(runs, cursors[..])
    ensures best < 0 ==> forall i | 0 <= i < |runs| :: cursors[i] == |runs[i]|
    ensures best >= 0 ==> best < |runs| && cursors[best] < |runs[best]|
    ensures best >= 0 ==> forall i | 0 <= i < |runs| && cursors[i] < |runs[i]| ::
                            NoneBefore(runs[best][cursors[best]], runs[i][cursors[i]])
    ensures forall i | 0 <= i < best && cursors[i] < |runs[i]| ::
            Less(runs[best][cursors[best]].key, runs[i][cursors[i]].key)
  {
    best := -1;
    for i := 0 to |runs|
      invariant -1 <= best < i && (best >= 0 ==> cursors[best] < |runs[best]|)
      invariant best < 0 ==> forall k | 0 <= k < i :: cursors[k] == |runs[k]|
      invariant best >= 0 ==> forall k | 0 <= k < i && cursors[k] < |runs[k]| ::
                                NoneBefore(runs[best][cursors[best]], runs[k][cursors[k]])
      invariant forall k | 0 <= k < best && cursors[k] < |runs[k]| ::
                Less(runs[best][cursors[best]].key, runs[k][cursors[k]].key)
    {
      assert cursors[i] == cursors[..][i];
      if cursors[i] >= |runs[i]| {
        continue;
      }
      if best < 0 {
        LessIrreflexive(runs[i][cursors[i]].key);
        best := i;
      } else if Less(runs[i][cursors[i]].key, runs[best][cursors[best]].key) {
        var was, now := runs[best][cursors[best]], runs[i][cursors[i]];
        LessAsymmetric(now.key, was.key);
        LessIrreflexive(now.key);
        forall k | 0 <= k < i && cursors[k] < |runs[k]|
          ensures Less(now.key, runs[k][cursors[k]].key) && NoneBefore(now, runs[k][cursors[k]])
        {
          var other := runs[k][cursors[k]];
          NoneBeforeTransitive(now, was, other);
          LessTotal(was.key, other.key);
          if Less(was.key, other.key) {
            LessTransitive(now.key, was.key, other.key);
          }
        }
        best := i;
      }
    }
  }

  predicate RunsSorted(runs: seq<seq<KV>>)
  {
    forall i | 0 <= i < |runs| :: KeySorted(runs[i])
  }

  /** out is the merge of what the cursors have passed. */
  predicate MergedTo(runs: seq<seq<KV>>, cursors: seq<nat>, out: seq<KV>)
  {
    && InBounds(runs, cursors)
    && multiset(out) == Passed(runs, cursors)
    && (RunsSorted(runs) ==> KeySorted(out) && Ahead(out, runs, cursors))
  }

  lemma MergedOn(runs: seq<seq<KV>>, cursors: seq<nat>, out: seq<KV>, best: nat)
    requires MergedTo(runs, cursors, out) && best < |runs| && cursors[best] < |runs[best]|
    requires forall i | 0 <= i < |runs| && cursors[i] < |runs[i]| ::
             NoneBefore(runs[best][cursors[best]], runs[i][cursors[i]])
    ensures MergedTo(runs, cursors[best := cursors[best] + 1], out + [runs[best][cursors[best]]])
  {
    PassedOne(runs, cursors, best);
    if RunsSorted(runs) {
      NextAhead(out, runs, cursors, best);
    }
  }

  method Total(runs: seq<seq<KV>>) returns (total: nat)
    ensures total == |All(runs)|
  {
    total := 0;
    for i := 0 to |runs|
      invariant total + |All(runs[i..])| == |All(runs)|
    {
      assert runs[i..][1..] == runs[i + 1..];
      total := total + |runs[i]|;
    }
  }

  /** mergeKVRuns. Every pair comes out once, and sorted runs merge sorted. */
  method MergeRuns(runs: seq<seq<KV>>) returns (out: seq<KV>)
    ensures multiset(out) == All(runs)
    ensures RunsSorted(runs) ==> KeySorted(out)
  {
    var total := Total(runs);
    out := [];
    var cursors := new nat[|runs|](_ => 0);
    PassedNone(runs, cursors[..]);
    for n := 0 to total
      invariant n == |out| && MergedTo(runs, cursors[..], out)
    {
      var best := Best(runs, cursors);
      if best < 0 {
        break;
      }
      ghost var before := cursors[..];
      MergedOn(runs, before, out, best);
      out := out + [runs[best][cursors[best]]];
      cursors[best] := cursors[best] + 1;
      assert cursors[..] == before[best := before[best] + 1];
    }
    MergedAll(runs, cursors[..], out);
  }

  /** All is out once as much is out as there is, or nothing is left to take. */
  lemma MergedAll(runs: seq<seq<KV>>, cursors: seq<nat>, out: seq<KV>)
    requires MergedTo(runs, cursors, out)
    requires |out| == |All(runs)| || forall i | 0 <= i < |runs| :: cursors[i] == |runs[i]|
    ensures multiset(out) == All(runs)
  {
    PassedAll(runs, cursors);
    assert |multiset(out)| == |out|;
  }

  lemma NextAhead(out: seq<KV>, runs: seq<seq<KV>>, cursors: seq<nat>, best: nat)
    requires InBounds(runs, cursors) && best < |runs| && cursors[best] < |runs[best]|
    requires RunsSorted(runs) && KeySorted(out) && Ahead(out, runs, cursors)
    requires forall i | 0 <= i < |runs| && cursors[i] < |runs[i]| ::
             NoneBefore(runs[best][cursors[best]], runs[i][cursors[i]])
    ensures KeySorted(out + [runs[best][cursors[best]]])
    ensures Ahead(out + [runs[best][cursors[best]]], runs, cursors[best := cursors[best] + 1])
  {
    var next, moved := runs[best][cursors[best]], cursors[best := cursors[best] + 1];
    forall i, j | 0 <= i < |runs| && moved[i] <= j < |runs[i]| ensures NoneBefore(next, runs[i][j]) {
      if cursors[i] < j {
        NoneBeforeTransitive(next, runs[i][cursors[i]], runs[i][j]);
      }
    }
  }
}
