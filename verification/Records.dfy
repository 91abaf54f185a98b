/** Intermediate records, the order they are sorted in, and sorted lists of them. */
module Records {
  import opened Texts
  import Seqs

  datatype Record = Record(primary: Text, secondary: Text, value: Text)

  /** recordLess. */
  predicate RecordLess(a: Record, b: Record)
  {
    if a.primary != b.primary then Less(a.primary, b.primary)
    else if a.secondary != b.secondary then Less(a.secondary, b.secondary)
    else Less(a.value, b.value)
  }

  predicate OnlyPrimary(records: seq<Record>)
  {
    forall i | 0 <= i < |records| :: records[i].secondary == []
  }

  predicate AtMost(a: Record, b: Record) { a == b || RecordLess(a, b) }

  /** recordLess is a strict total order: records it cannot tell apart are equal. */
  lemma RecordTotal(a: Record, b: Record)
    ensures AtMost(a, b) <==> !RecordLess(b, a)
    ensures AtMost(a, b) && AtMost(b, a) ==> a == b
  {
    LessTotal(a.primary, b.primary);
    LessTotal(a.secondary, b.secondary);
    LessTotal(a.value, b.value);
    LessAsymmetric(a.primary, b.primary);
    LessAsymmetric(a.secondary, b.secondary);
    LessAsymmetric(a.value, b.value);
  }

  lemma LessAsymmetric(a: Text, b: Text)
    ensures !(Less(a, b) && Less(b, a))
  {
    if Less(a, b) && Less(b, a) {
      LessTransitive(a, b, a);
      LessIrreflexive(a);
    }
  }

  lemma RecordTransitive(a: Record, b: Record, c: Record)
    requires AtMost(a, b) && AtMost(b, c)
    ensures AtMost(a, c)
  {
    if a != b && b != c {
      if Less(a.primary, b.primary) && Less(b.primary, c.primary) {
        LessTransitive(a.primary, b.primary, c.primary);
      }
      if Less(a.secondary, b.secondary) && Less(b.secondary, c.secondary) {
        LessTransitive(a.secondary, b.secondary, c.secondary);
      }
      if Less(a.value, b.value) && Less(b.value, c.value) {
        LessTransitive(a.value, b.value, c.value);
      }
      LessAsymmetric(a.primary, b.primary);
      LessAsymmetric(a.secondary, b.secondary);
    }
  }

  predicate Sorted(s: seq<Record>)
  {
    forall i, j | 0 <= i < j < |s| :: AtMost(s[i], s[j])
  }

  /** Every record of s is at least r. */
  predicate AllFrom(r: Record, s: seq<Record>)
  {
    forall i | 0 <= i < |s| :: AtMost(r, s[i])
  }

  lemma SortedCons(r: Record, s: seq<Record>)
    requires Sorted(s) && AllFrom(r, s)
    ensures Sorted([r] + s)
  {
  }

  lemma HeadTail(s: seq<Record>)
    requires s != []
    ensures multiset(s) == multiset{s[0]} + multiset(s[1..])
    ensures multiset(s[1..]) == multiset(s) - multiset{s[0]}
  {
    assert s == [s[0]] + s[1..];
  }

  /** A sorted list is the only sorted order of its records. */
  lemma {:induction false} SortedUnique(a: seq<Record>, b: seq<Record>)
    requires Sorted(a) && Sorted(b) && multiset(a) == multiset(b)
    ensures a == b
    decreases |a|
  {
    SameLength(a, b);
    if a != [] {
      SameHead(a, b);
      SameTail(a, b);
      SortedUnique(a[1..], b[1..]);
      assert a == [a[0]] + a[1..] && b == [b[0]] + b[1..];
    }
  }

  lemma SameLength(a: seq<Record>, b: seq<Record>)
    requires multiset(a) == multiset(b)
    ensures |a| == |b|
  {
    assert |a| == |multiset(a)| && |b| == |multiset(b)|;
  }

  lemma SameTail(a: seq<Record>, b: seq<Record>)
    requires Sorted(a) && Sorted(b) && multiset(a) == multiset(b) && a != [] && b != [] && a[0] == b[0]
    ensures Sorted(a[1..]) && Sorted(b[1..]) && multiset(a[1..]) == multiset(b[1..])
  {
    HeadTail(a);
    HeadTail(b);
  }

  lemma SameHead(a: seq<Record>, b: seq<Record>)
    requires Sorted(a) && Sorted(b) && multiset(a) == multiset(b) && a != [] && b != []
    ensures a[0] == b[0]
  {
    assert a[0] in multiset(b) && b[0] in multiset(a);
    RecordTotal(a[0], b[0]);
  }

  // ---------------------------------------------------------------- sorting

  function Insert(r: Record, s: seq<Record>): (out: seq<Record>)
    ensures multiset(out) == multiset(s) + multiset{r}
  {
    if s == [] || AtMost(r, s[0]) then [r] + s
    else
      assert s == [s[0]] + s[1..];
      [s[0]] + Insert(r, s[1..])
  }

  lemma {:induction false} InsertSorted(r: Record, s: seq<Record>)
    requires Sorted(s)
    ensures Sorted(Insert(r, s))
  {
    if s != [] && !AtMost(r, s[0]) {
      InsertSorted(r, s[1..]);
      var rest := Insert(r, s[1..]);
      forall i | 0 <= i < |rest| ensures AtMost(s[0], rest[i]) {
        assert rest[i] in multiset(rest);
        RecordTotal(r, s[0]);
        RecordTotal(s[0], r);
        assert rest[i] == r || rest[i] in multiset(s[1..]);
      }
      SortedCons(s[0], rest);
    } else if s != [] {
      forall i | 0 <= i < |s| ensures AtMost(r, s[i]) {
        RecordTransitive(r, s[0], s[i]);
      }
      SortedCons(r, s);
    }
  }

  /** What sort.Slice leaves: the one sorted order of s. */
  function Arranged(s: seq<Record>): (out: seq<Record>)
    ensures Sorted(out) && multiset(out) == multiset(s)
  {
    if s == [] then []
    else
      assert s == [s[0]] + s[1..];
      InsertSorted(s[0], Arranged(s[1..]));
      Insert(s[0], Arranged(s[1..]))
  }

  // ---------------------------------------------------------------- lists of lists

  function Flatten(runs: seq<seq<Record>>): seq<Record>
  {
    if runs == [] then [] else runs[0] + Flatten(runs[1..])
  }

  lemma {:induction false} FlattenAppend(a: seq<seq<Record>>, b: seq<seq<Record>>)
    ensures Flatten(a + b) == Flatten(a) + Flatten(b)
  {
    if a == [] {
      assert a + b == b;
    } else {
      FlattenAppend(a[1..], b);
      assert (a + b)[1..] == a[1..] + b;
      Seqs.Assoc(a[0], Flatten(a[1..]), Flatten(b));
    }
  }

  lemma FlattenOne(a: seq<seq<Record>>, s: seq<Record>)
    ensures Flatten(a + [s]) == Flatten(a) + s
  {
    FlattenAppend(a, [s]);
    assert [s][1..] == [];
  }

  lemma FlattenLast(runs: seq<seq<Record>>)
    requires runs != []
    ensures Flatten(runs) == Flatten(runs[..|runs| - 1]) + runs[|runs| - 1]
  {
    FlattenOne(runs[..|runs| - 1], runs[|runs| - 1]);
    assert runs == runs[..|runs| - 1] + [runs[|runs| - 1]];
  }
}
