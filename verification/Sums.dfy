/** SumReducer and SumCombiner, over the 64-bit integers that decimal text holds. */
module Sums {
  import opened Widths
  import opened Texts
  import opened Records
  import opened Outcomes
  import opened Decimals
  import opened Combining
  import opened MapOutput
  import opened Grouping
  import opened Combiners
  import Seqs

  // ---------------------------------------------------------------- sums that wrap

  /** What is left of n in a 64-bit signed integer. */
  function Wrap(n: int): (r: int)
    ensures IsInt(r)
  {
    (n + TWO_63) % TWO_64 - TWO_63
  }

  function Plus(a: Outcome<int>, b: Outcome<int>): Outcome<int>
  {
    if a.Ok? && b.Ok? then Ok(Wrap(a.value + b.value)) else Failed
  }

  /** The sum of values, as 64-bit addition leaves it; a value that is not an
      integer spoils it. */
  function SumOf(values: seq<Text>): Outcome<int>
  {
    if values == [] then Ok(0) else Plus(SumOf(values[..|values| - 1]), Atoi(values[|values| - 1]))
  }

  lemma WrapOnce(a: int, b: int)
    ensures Wrap(Wrap(a) + b) == Wrap(a + b)
  {
    var k := (a + TWO_63) / TWO_64;
    assert Wrap(a) == a - k * TWO_64;
    WrapShift(a + b, k);
  }

  lemma {:induction false} WrapShift(a: int, k: int)
    ensures Wrap(a - k * TWO_64) == Wrap(a)
  {
    var x := a + TWO_63;
    var q, r := x / TWO_64, x % TWO_64;
    assert x - k * TWO_64 == (q - k) * TWO_64 + r;
    ModuloIs(x - k * TWO_64, q - k, r);
  }

  lemma ModuloIs(x: int, q: int, r: int)
    requires x == q * TWO_64 + r && 0 <= r < TWO_64
    ensures x % TWO_64 == r
  {
    var q', r' := x / TWO_64, x % TWO_64;
    assert (q' - q) * TWO_64 == r - r';
  }

  lemma PlusLaws(a: Outcome<int>, b: Outcome<int>, c: Outcome<int>)
    ensures Plus(Plus(a, b), c) == Plus(a, Plus(b, c)) && Plus(a, b) == Plus(b, a)
  {
    if a.Ok? && b.Ok? && c.Ok? {
      WrapOnce(a.value + b.value, c.value);
      WrapOnce(b.value + c.value, a.value);
    }
  }

  lemma {:induction false} SumInRange(values: seq<Text>)
    ensures SumOf(values).Ok? ==> IsInt(SumOf(values).value)
  {
  }

  lemma PlusZero(a: Outcome<int>)
    requires a.Ok? ==> IsInt(a.value)
    ensures Plus(a, Ok(0)) == a
  {
  }

  lemma {:induction false} SumAppend(a: seq<Text>, b: seq<Text>)
    ensures SumOf(a + b) == Plus(SumOf(a), SumOf(b))
    decreases |b|
  {
    if b == [] {
      assert a + b == a;
      SumInRange(a);
      PlusZero(SumOf(a));
    } else {
      var front, last := b[..|b| - 1], b[|b| - 1];
      SumAppend(a, front);
      assert (a + b)[..|a + b| - 1] == a + front;
      PlusLaws(SumOf(a), SumOf(front), Atoi(last));
    }
  }

  lemma SumOne(v: Text)
    ensures SumOf([v]) == Atoi(v)
  {
    assert [v][..0] == [];
    PlusLaws(Ok(0), Atoi(v), Ok(0));
    PlusZero(Atoi(v));
  }

  lemma SumMiddle(x: seq<Text>, v: Text, y: seq<Text>)
    ensures SumOf(x + [v] + y) == Plus(SumOf(x + y), Atoi(v))
  {
    SumAppend(x + [v], y);
    SumAppend(x, [v]);
    SumAppend(x, y);
    SumOne(v);
    PlusLaws(SumOf(x), Atoi(v), SumOf(y));
    PlusLaws(SumOf(x), SumOf(y), Atoi(v));
    PlusLaws(Atoi(v), SumOf(y), Ok(0));
  }

  /** The order of the values does not change the sum. */
  lemma {:induction false} SumPermuted(a: seq<Text>, b: seq<Text>)
    requires multiset(a) == multiset(b)
    ensures SumOf(a) == SumOf(b)
    decreases |a|
  {
    if a == [] {
      assert |multiset(b)| == 0;
    } else {
      var front, last := a[..|a| - 1], a[|a| - 1];
      assert a == front + [last];
      var x, y := Seqs.Around(b, last);
      Seqs.LeftAlike(front, b, last, x, y);
      SumPermuted(front, x + y);
      SumMiddle(x, last, y);
      Seqs.Assoc(x, [last], y);
    }
  }

  // ---------------------------------------------------------------- combining and reducing

  /** The running total of a loop over values. */
  method AddUp(values: seq<Text>) returns (sum: Outcome<int>)
    ensures sum == SumOf(values)
  {
    var total := 0;
    for i := 0 to |values|
      invariant SumOf(values[..i]) == Ok(total)
    {
      assert values[..i + 1][..i] == values[..i];
      var n := Atoi(values[i]);
      if n.Failed? {
        assert values == values[..i + 1] + values[i + 1..];
        SumAppend(values[..i + 1], values[i + 1..]);
        return Failed;
      }
      total := Wrap(total + n.value);
    }
    assert values[..|values|] == values;
    sum := Ok(total);
  }

  /** SumReducer's answer. */
  function SumAnswer(values: seq<Text>): Outcome<Text>
  {
    match SumOf(values)
    case Ok(n) => Ok(Itoa(n))
    case Failed => Failed
  }

  method SumReducer(values: seq<Text>) returns (r: Outcome<Text>)
    ensures r == SumAnswer(values)
  {
    var sum := AddUp(values);
    if sum.Failed? {
      return Failed;
    }
    r := Ok(Itoa(sum.value));
  }

  /** What SumCombiner makes of a key's values: fewer than two stay as they are. */
  function SumCombined(k: Text, values: seq<Text>): Outcome<seq<Text>>
  {
    if |values| < 2 then Ok(values)
    else
      match SumOf(values)
      case Ok(n) => Ok([Itoa(n)])
      case Failed => Failed
  }

  method SumCombiner(k: Text, values: seq<Text>) returns (r: Outcome<seq<Text>>)
    ensures r == SumCombined(k, values)
  {
    if |values| < 2 {
      return Ok(values);
    }
    var sum := AddUp(values);
    if sum.Failed? {
      return Failed;
    }
    r := Ok([Itoa(sum.value)]);
  }

  /** Combining keeps the sum, overflow and all, and fails only where summing does. */
  lemma CombinedSum(k: Text, values: seq<Text>)
    ensures match SumCombined(k, values)
            case Ok(got) => SumOf(got) == SumOf(values)
            case Failed => SumOf(values).Failed?
  {
    if |values| >= 2 && SumOf(values).Ok? {
      SumInRange(values);
      ItoaAtoi(SumOf(values).value);
      SumOne(Itoa(SumOf(values).value));
    }
  }

  /** The Combiner contract, failures included: combining in pieces equals
      combining all at once. */
  lemma SumLaw(k: Text, a: seq<Text>, b: seq<Text>)
    ensures var x, y := SumCombined(k, a), SumCombined(k, b);
            if x.Ok? && y.Ok? then SumCombined(k, x.value + y.value) == SumCombined(k, a + b)
            else SumCombined(k, a + b).Failed?
  {
    CombinedSum(k, a);
    CombinedSum(k, b);
    SumAppend(a, b);
    var x, y := SumCombined(k, a), SumCombined(k, b);
    if x.Ok? && y.Ok? {
      SumAppend(x.value, y.value);
      if a == [] {
        assert x.value + y.value == y.value && a + b == b;
      } else if b == [] {
        assert x.value + y.value == x.value && a + b == a;
      }
    }
  }

  // ---------------------------------------------------------------- over a whole partition

  function KeySum(records: seq<Record>, k: Text): Outcome<int>
  {
    SumOf(ValuesOf(records, k))
  }

  lemma KeySumAppend(a: seq<Record>, b: seq<Record>, k: Text)
    ensures KeySum(a + b, k) == Plus(KeySum(a, k), KeySum(b, k))
  {
    ValuesAppend(a, b, k);
    SumAppend(ValuesOf(a, k), ValuesOf(b, k));
  }

  lemma KeySumArranged(records: seq<Record>, k: Text)
    ensures KeySum(Arranged(records), k) == KeySum(records, k)
  {
    ValuesOfMultiset(Arranged(records), records, k);
    SumPermuted(ValuesOf(Arranged(records), k), ValuesOf(records, k));
  }

  lemma PreparedSum(batch: seq<Record>, k: Text)
    requires Prepared(batch, Some(SumCombined)).Ok?
    ensures KeySum(Prepared(batch, Some(SumCombined)).value, k) == KeySum(batch, k)
  {
    var combined := Combined(Arranged(batch), SumCombined).value;
    CombinedValues(Arranged(batch), SumCombined, k);
    CombinedSum(k, ValuesOf(Arranged(batch), k));
    KeySumArranged(batch, k);
    KeySumArranged(combined, k);
  }

  lemma {:induction false} StoredSum(batches: seq<seq<Record>>, k: Text)
    requires forall b | b in batches :: Prepared(b, Some(SumCombined)).Ok?
    ensures KeySum(Stored(batches, Some(SumCombined)), k) == KeySum(Flatten(batches), k)
    decreases |batches|
  {
    if batches != [] {
      var front, last := batches[..|batches| - 1], batches[|batches| - 1];
      assert last in batches && forall b | b in front :: b in batches;
      StoredSum(front, k);
      PreparedSum(last, k);
      FlattenLast(batches);
      KeySumAppend(Flatten(front), last, k);
      KeySumAppend(Stored(front, Some(SumCombined)), Prepared(last, Some(SumCombined)).value, k);
    }
  }

  /** Wherever the flushes fell, SumReducer answers after SumCombiner what it
      answers without it, also where the sums overflow and where it fails. */
  lemma SumTransparent(batches: seq<seq<Record>>, k: Text)
    requires forall b | b in batches :: Prepared(b, Some(SumCombined)).Ok?
    ensures SumAnswer(ValuesOf(Arranged(Stored(batches, Some(SumCombined))), k))
            == SumAnswer(ValuesOf(Arranged(Flatten(batches)), k))
  {
    StoredSum(batches, k);
    KeySumArranged(Stored(batches, Some(SumCombined)), k);
    KeySumArranged(Flatten(batches), k);
  }

  /** SumReducer: it reads until a value that is no number. */
  const SUMMER := Reducer((k, read) => SumOf(read).Failed?, (k, read) => SumAnswer(read))

  lemma {:induction false} SummerReads(k: Text, values: seq<Text>, n: nat)
    requires n <= |values|
    ensures SumOf(Taken(SUMMER, k, values, n)) == SumOf(values)
    decreases |values| - n
  {
    if n == |values| {
      assert values[..n] == values;
    } else if SumOf(values[..n]).Failed? {
      assert values == values[..n] + values[n..];
      SumAppend(values[..n], values[n..]);
    } else {
      SummerReads(k, values, n + 1);
    }
  }

  lemma SummerAnswers(k: Text, values: seq<Text>)
    ensures Answer(SUMMER, k, values) == SumAnswer(values)
  {
    SummerReads(k, values, 0);
  }

  lemma PreparedHas(batch: seq<Record>, k: Text)
    requires Prepared(batch, Some(SumCombined)).Ok?
    ensures ValuesOf(Prepared(batch, Some(SumCombined)).value, k) == [] <==> ValuesOf(batch, k) == []
  {
    var s := Arranged(batch);
    var combined := Combined(s, SumCombined).value;
    CombinedValues(s, SumCombined, k);
    SameEmpty(batch, s, k);
    SameEmpty(combined, Arranged(combined), k);
  }

  lemma SameEmpty(a: seq<Record>, b: seq<Record>, k: Text)
    requires multiset(a) == multiset(b)
    ensures ValuesOf(a, k) == [] <==> ValuesOf(b, k) == []
  {
    ValuesOfMultiset(a, b, k);
    assert |multiset(ValuesOf(a, k))| == |ValuesOf(a, k)| && |multiset(ValuesOf(b, k))| == |ValuesOf(b, k)|;
  }

  /** Combining takes no key away. */
  lemma {:induction false} StoredHas(batches: seq<seq<Record>>, k: Text)
    requires Fit(batches, Some(SumCombined))
    ensures ValuesOf(Stored(batches, Some(SumCombined)), k) == [] <==> ValuesOf(Flatten(batches), k) == []
    decreases |batches|
  {
    if batches != [] {
      var front, last := batches[..|batches| - 1], batches[|batches| - 1];
      StoredHas(front, k);
      PreparedHas(last, k);
      FlattenLast(batches);
      ValuesAppend(Flatten(front), last, k);
      ValuesAppend(Stored(front, Some(SumCombined)), Prepared(last, Some(SumCombined)).value, k);
    }
  }

  lemma SumKeySame(batches: seq<seq<Record>>, k: Text)
    requires Fit(batches, Some(SumCombined))
    ensures SameKey(SUMMER, k, ValuesOf(Arranged(Stored(batches, Some(SumCombined))), k),
                    ValuesOf(Arranged(Flatten(batches)), k))
  {
    var stored, raw := Stored(batches, Some(SumCombined)), Flatten(batches);
    assert forall b | b in batches :: Prepared(b, Some(SumCombined)).Ok?;
    SumTransparent(batches, k);
    StoredHas(batches, k);
    SameEmpty(stored, Arranged(stored), k);
    SameEmpty(raw, Arranged(raw), k);
    SummerAnswers(k, ValuesOf(Arranged(stored), k));
    SummerAnswers(k, ValuesOf(Arranged(raw), k));
  }

  /** SumCombiner leaves SumReducer's whole output as it is, wherever flushes fell. */
  lemma SumHarmless()
    ensures Harmless(Some(SumCombined), SUMMER)
  {
    forall batches: seq<seq<Record>> | Fit(batches, Some(SumCombined))
      ensures Reduced(Arranged(Stored(batches, Some(SumCombined))), SUMMER) ==
              Reduced(Arranged(Flatten(batches)), SUMMER)
    {
      var x, y := Arranged(Stored(batches, Some(SumCombined))), Arranged(Flatten(batches));
      forall k ensures SameKey(SUMMER, k, ValuesOf(x, k), ValuesOf(y, k)) {
        SumKeySame(batches, k);
      }
      SameOutput(x, y, SUMMER);
    }
  }

  lemma {:induction false} CombineFails(records: seq<Record>) returns (k: Text)
    requires Sorted(records) && OnlyPrimary(records) && Combined(records, SumCombined).Failed?
    ensures KeySum(records, k).Failed?
    decreases |records|
  {
    var n, key := KeyEnd(records), records[0].primary;
    if SumCombined(key, Values(records[..n])).Failed? {
      k := key;
      CombinedSum(k, Values(records[..n]));
      ValuesOfKey(records[..n], k);
    } else {
      k := CombineFails(records[n..]);
    }
    FailsInPart(records, n, k);
  }

  lemma FailsInPart(records: seq<Record>, n: nat, k: Text)
    requires n <= |records| && (KeySum(records[..n], k).Failed? || KeySum(records[n..], k).Failed?)
    ensures KeySum(records, k).Failed?
  {
    KeySumAppend(records[..n], records[n..], k);
    assert records == records[..n] + records[n..];
  }

  /** A key whose sum fails in one batch fails in them all together. */
  lemma {:induction false} FailureSpreads(batches: seq<seq<Record>>, i: nat, k: Text)
    requires i < |batches| && KeySum(batches[i], k).Failed?
    ensures KeySum(Flatten(batches), k).Failed?
  {
    KeySumAppend(batches[0], Flatten(batches[1..]), k);
    if i > 0 {
      FailureSpreads(batches[1..], i - 1, k);
    }
  }

  /** A batch that cannot be combined holds a key that could not be summed. */
  lemma CombineFailureIsReal(batches: seq<seq<Record>>, i: nat) returns (k: Text)
    requires i < |batches| && OnlyPrimary(batches[i]) && Prepared(batches[i], Some(SumCombined)).Failed?
    ensures SumAnswer(ValuesOf(Arranged(Flatten(batches)), k)).Failed?
  {
    var arranged := Arranged(batches[i]);
    forall j | 0 <= j < |arranged| ensures arranged[j].secondary == [] {
      assert arranged[j] in multiset(batches[i]);
    }
    k := CombineFails(arranged);
    KeySumArranged(batches[i], k);
    FailureSpreads(batches, i, k);
    KeySumArranged(Flatten(batches), k);
  }
}
