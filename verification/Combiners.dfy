/** When a combiner changes nothing but the size of the data. */
module Combiners {
  import opened Texts
  import opened Records
  import opened Outcomes
  import opened Combining
  import opened Cutting
  import opened Grouping
  import opened MapOutput
  import opened Shuffle
  import Seqs

  /** A combiner that never fails. */
  type Total = (Text, seq<Text>) -> seq<Text>

  function Plain(c: Total): Combiner
  {
    (k, values) => Ok(c(k, values))
  }

  /** What combineRun makes of a key's values: a key without any is not combined. */
  function Ran(c: Total, k: Text, values: seq<Text>): seq<Text>
  {
    if values == [] then [] else c(k, values)
  }

  /** The Combiner contract: combining in pieces equals combining all at once. */
  ghost predicate Law(c: Total)
  {
    forall k, a, b :: Ran(c, k, Ran(c, k, a) + Ran(c, k, b)) == Ran(c, k, a + b)
  }

  /** Combining data that it has touched before changes nothing. */
  ghost predicate Settles(c: Total)
  {
    forall k, values :: Ran(c, k, Ran(c, k, values)) == Ran(c, k, values)
  }

  lemma LawSettles(c: Total)
    requires Law(c)
    ensures Settles(c)
  {
    forall k, values ensures Ran(c, k, Ran(c, k, values)) == Ran(c, k, values) {
      assert Ran(c, k, Ran(c, k, values) + Ran(c, k, [])) == Ran(c, k, values + []);
      assert Ran(c, k, values) + [] == Ran(c, k, values) && values + [] == values;
    }
  }

  /** Combining first does not change the answer. */
  ghost predicate Matches(red: Reducer, c: Total)
  {
    forall k, values | values != [] :: Answer(red, k, c(k, values)) == Answer(red, k, values)
  }

  // ---------------------------------------------------------------- many batches

  function Joined(parts: seq<seq<Text>>): seq<Text>
  {
    if parts == [] then [] else Joined(parts[..|parts| - 1]) + parts[|parts| - 1]
  }

  /** Each batch combined on its own. */
  function EachCombined(f: Total, k: Text, parts: seq<seq<Text>>): seq<Text>
  {
    if parts == [] then [] else EachCombined(f, k, parts[..|parts| - 1]) + f(k, parts[|parts| - 1])
  }

  /** f combines in two pieces as all at once. */
  ghost predicate Pieces(f: Total)
  {
    && (forall k :: f(k, []) == [])
    && (forall k, a, b :: f(k, f(k, a) + f(k, b)) == f(k, a + b))
  }

  /** The law for two pieces holds for any number of them. */
  lemma {:induction false} LawForAll(f: Total, k: Text, parts: seq<seq<Text>>)
    requires Pieces(f)
    ensures f(k, EachCombined(f, k, parts)) == f(k, Joined(parts))
    decreases |parts|
  {
    if parts != [] {
      var front, last := parts[..|parts| - 1], parts[|parts| - 1];
      LawForAll(f, k, front);
      var x := EachCombined(f, k, front);
      assert f(k, last) + [] == f(k, last) && last + [] == last;
      assert f(k, f(k, last)) == f(k, last) by {
        assert f(k, f(k, last) + f(k, [])) == f(k, last + []);
      }
      assert f(k, x + f(k, last)) == f(k, f(k, x) + f(k, f(k, last)));
      assert f(k, f(k, Joined(front)) + f(k, last)) == f(k, Joined(front) + last);
    }
  }

  // ---------------------------------------------------------------- values in order

  /** Values as a sorted run of one key has them. */
  function InOrder(values: seq<Text>): seq<Text>
  {
    Values(Arranged(Keyed([], [], values)))
  }

  lemma {:induction false} KeyedCount(values: seq<Text>, r: Record)
    ensures multiset(Keyed([], [], values))[r] ==
            if r.primary == [] && r.secondary == [] then multiset(values)[r.value] else 0
  {
    if values != [] {
      var front, last := values[..|values| - 1], values[|values| - 1];
      KeyedCount(front, r);
      assert Keyed([], [], values) == Keyed([], [], front) + [Record([], [], last)];
      assert values == front + [last];
    }
  }

  lemma KeyedAlike(a: seq<Text>, b: seq<Text>)
    requires multiset(a) == multiset(b)
    ensures multiset(Keyed([], [], a)) == multiset(Keyed([], [], b))
  {
    forall r ensures multiset(Keyed([], [], a))[r] == multiset(Keyed([], [], b))[r] {
      KeyedCount(a, r);
      KeyedCount(b, r);
    }
  }

  /** The order they come in does not matter. */
  lemma InOrderAlike(a: seq<Text>, b: seq<Text>)
    requires multiset(a) == multiset(b)
    ensures InOrder(a) == InOrder(b)
  {
    KeyedAlike(a, b);
    SortedUnique(Arranged(Keyed([], [], a)), Arranged(Keyed([], [], b)));
  }

  lemma AllOfKey(s: seq<Record>, t: seq<Record>)
    requires multiset(s) == multiset(t) && forall i | 0 <= i < |s| :: s[i].primary == []
    ensures forall i | 0 <= i < |t| :: t[i].primary == []
  {
    forall i | 0 <= i < |t| ensures t[i].primary == [] {
      assert t[i] in multiset(s);
    }
  }

  lemma ValuesAlike(s: seq<Record>, t: seq<Record>)
    requires multiset(s) == multiset(t) && forall i | 0 <= i < |s| :: s[i].primary == []
    ensures multiset(Values(s)) == multiset(Values(t))
  {
    AllOfKey(s, t);
    ValuesOfKey(s, []);
    ValuesOfKey(t, []);
    ValuesOfMultiset(s, t, []);
  }

  lemma InOrderKeeps(values: seq<Text>)
    ensures multiset(InOrder(values)) == multiset(values)
  {
    var x := Keyed([], [], values);
    ValuesAlike(x, Arranged(x));
    assert Values(x) == values;
  }

  lemma InOrderEmpty(values: seq<Text>)
    ensures InOrder(values) == [] <==> values == []
  {
    InOrderKeeps(values);
    assert |multiset(InOrder(values))| == |InOrder(values)| && |multiset(values)| == |values|;
  }

  lemma KeyedSorted(x: seq<Record>, k: Text)
    requires Sorted(x) && forall i | 0 <= i < |x| :: x[i].primary == k && x[i].secondary == []
    ensures Sorted(Keyed([], [], Values(x)))
  {
    var y := Keyed([], [], Values(x));
    forall i, j | 0 <= i < j < |y| ensures AtMost(y[i], y[j]) {
      assert AtMost(x[i], x[j]);
    }
  }

  lemma OfKeyAre(records: seq<Record>, k: Text)
    requires OnlyPrimary(records)
    ensures forall i | 0 <= i < |OfKey(records, k)| ::
            OfKey(records, k)[i].primary == k && OfKey(records, k)[i].secondary == []
  {
    var x := OfKey(records, k);
    forall i | 0 <= i < |x| ensures x[i].primary == k && x[i].secondary == [] {
      OfKeyCount(records, k, x[i]);
      assert x[i] in multiset(x);
      assert x[i] in multiset(records);
    }
  }

  lemma PrimaryArranged(records: seq<Record>)
    requires OnlyPrimary(records)
    ensures OnlyPrimary(Arranged(records))
  {
    var s := Arranged(records);
    forall i | 0 <= i < |s| ensures s[i].secondary == [] {
      assert s[i] in multiset(records);
    }
  }

  /** Sorting records without secondary keys puts each key's values in order. */
  lemma SortedValues(records: seq<Record>, k: Text)
    requires OnlyPrimary(records)
    ensures ValuesOf(Arranged(records), k) == InOrder(ValuesOf(records, k))
  {
    var s := Arranged(records);
    var x, v := OfKey(s, k), ValuesOf(s, k);
    OfKeyValues(s, k);
    OfKeySorted(s, k);
    PrimaryArranged(records);
    OfKeyAre(s, k);
    KeyedSorted(x, k);
    ValuesOfMultiset(s, records, k);
    InOrderAlike(v, ValuesOf(records, k));
    SortedUnique(Arranged(Keyed([], [], v)), Keyed([], [], v));
    assert Values(Keyed([], [], v)) == v;
  }

  // ---------------------------------------------------------------- what is stored

  /** The records eqmr's mappers write have no secondary keys. */
  predicate AllPrimary(batches: seq<seq<Record>>)
  {
    forall i | 0 <= i < |batches| :: OnlyPrimary(batches[i])
  }

  /** What is stored of a key's values in one batch. */
  function Ordered(c: Total): Total
  {
    (k, values) => Ran(c, k, InOrder(values))
  }

  lemma {:induction false} CombinedPrimary(records: seq<Record>, c: Total)
    requires OnlyPrimary(records)
    ensures Combined(records, Plain(c)).Ok? && OnlyPrimary(Combined(records, Plain(c)).value)
    decreases |records|
  {
    if records != [] {
      CombinedPrimary(records[KeyEnd(records)..], c);
    }
  }

  /** What one batch is stored as, seen from key k. */
  lemma PreparedValues(batch: seq<Record>, c: Total, k: Text)
    requires OnlyPrimary(batch)
    ensures var out := Prepared(batch, Some(Plain(c)));
            out.Ok? && OnlyPrimary(out.value) &&
              multiset(ValuesOf(out.value, k)) == multiset(Ordered(c)(k, ValuesOf(batch, k)))
  {
    var s := Arranged(batch);
    PrimaryArranged(batch);
    CombinedPrimary(s, c);
    var combined := Combined(s, Plain(c)).value;
    PrimaryArranged(combined);
    CombinedValues(s, Plain(c), k);
    SortedValues(batch, k);
    ValuesOfMultiset(combined, Arranged(combined), k);
  }

  /** The values of key k in each batch. */
  function BatchValues(batches: seq<seq<Record>>, k: Text): (parts: seq<seq<Text>>)
    ensures |parts| == |batches| && forall i | 0 <= i < |parts| :: parts[i] == ValuesOf(batches[i], k)
  {
    seq(|batches|, i requires 0 <= i < |batches| => ValuesOf(batches[i], k))
  }

  lemma BatchFront(batches: seq<seq<Record>>, k: Text)
    requires batches != []
    ensures BatchValues(batches, k)[..|batches| - 1] == BatchValues(batches[..|batches| - 1], k)
  {
  }

  lemma {:induction false} RawValues(batches: seq<seq<Record>>, k: Text)
    ensures ValuesOf(Flatten(batches), k) == Joined(BatchValues(batches, k))
    decreases |batches|
  {
    if batches != [] {
      var front, last := batches[..|batches| - 1], batches[|batches| - 1];
      RawValues(front, k);
      BatchFront(batches, k);
      FlattenLast(batches);
      ValuesAppend(Flatten(front), last, k);
    }
  }

  lemma {:induction false} StoredValues(batches: seq<seq<Record>>, c: Total, k: Text)
    requires AllPrimary(batches)
    ensures var stored := Stored(batches, Some(Plain(c)));
            OnlyPrimary(stored) &&
              multiset(ValuesOf(stored, k)) == multiset(EachCombined(Ordered(c), k, BatchValues(batches, k)))
    decreases |batches|
  {
    if batches != [] {
      var front, last := batches[..|batches| - 1], batches[|batches| - 1];
      StoredValues(front, c, k);
      BatchFront(batches, k);
      PreparedValues(last, c, k);
      ValuesAppend(Stored(front, Some(Plain(c))), Prepared(last, Some(Plain(c))).value, k);
    }
  }

  lemma {:induction false} FlattenPrimary(batches: seq<seq<Record>>)
    requires AllPrimary(batches)
    ensures OnlyPrimary(Flatten(batches))
  {
    if batches != [] {
      FlattenPrimary(batches[1..]);
    }
  }

  /** What a reducer is given of key k, with the combiner and without. */
  lemma Given(batches: seq<seq<Record>>, c: Total, k: Text)
    requires AllPrimary(batches)
    ensures ValuesOf(Arranged(Stored(batches, Some(Plain(c)))), k) ==
            InOrder(EachCombined(Ordered(c), k, BatchValues(batches, k)))
    ensures ValuesOf(Arranged(Flatten(batches)), k) == InOrder(Joined(BatchValues(batches, k)))
  {
    var stored := Stored(batches, Some(Plain(c)));
    StoredValues(batches, c, k);
    SortedValues(stored, k);
    InOrderAlike(ValuesOf(stored, k), EachCombined(Ordered(c), k, BatchValues(batches, k)));
    FlattenPrimary(batches);
    SortedValues(Flatten(batches), k);
    RawValues(batches, k);
  }

  // ---------------------------------------------------------------- the same output

  /** A key is put out with one list of values as with the other. */
  predicate SameKey(red: Reducer, k: Text, x: seq<Text>, y: seq<Text>)
  {
    (x == [] <==> y == []) && (x != [] ==> Answer(red, k, x) == Answer(red, k, y))
  }

  lemma SameFails(x: seq<Record>, y: seq<Record>, red: Reducer)
    requires Sorted(x) && Sorted(y) && forall k :: SameKey(red, k, ValuesOf(x, k), ValuesOf(y, k))
    ensures Reduced(x, red).Ok? <==> Reduced(y, red).Ok?
  {
    ReducedFails(x, red);
    ReducedFails(y, red);
    forall k ensures Fails(x, red, k) <==> Fails(y, red, k) {
      assert SameKey(red, k, ValuesOf(x, k), ValuesOf(y, k));
    }
  }

  lemma SameGroupings(v: Text -> seq<Text>, w: Text -> seq<Text>, red: Reducer, out: seq<KV>)
    requires GroupsBy(v, red, out) && forall k :: SameKey(red, k, v(k), w(k))
    ensures GroupsBy(w, red, out)
  {
    forall i | 0 <= i < |out| ensures Answer(red, out[i].key, w(out[i].key)) == Ok(out[i].value) {
      assert HasKey(out, out[i].key) && SameKey(red, out[i].key, v(out[i].key), w(out[i].key));
    }
    forall k ensures w(k) != [] <==> HasKey(out, k) {
      assert SameKey(red, k, v(k), w(k));
    }
  }

  /** Key by key the same is the same output. */
  lemma SameOutput(x: seq<Record>, y: seq<Record>, red: Reducer)
    requires Sorted(x) && Sorted(y) && forall k :: SameKey(red, k, ValuesOf(x, k), ValuesOf(y, k))
    ensures Reduced(x, red) == Reduced(y, red)
  {
    SameFails(x, y, red);
    if Reduced(x, red).Ok? {
      var v: Text -> seq<Text> := k => ValuesOf(x, k);
      var w: Text -> seq<Text> := k => ValuesOf(y, k);
      ReducedGroups(x, red);
      ReducedGroups(y, red);
      SameGroupings(v, w, red, Reduced(x, red).value);
      GroupsUnique(w, red, Reduced(x, red).value, Reduced(y, red).value);
    }
  }

  /** And of a reducer that never fails, the same output is key by key the same. */
  lemma OutputSame(x: seq<Record>, y: seq<Record>, red: Reducer, k: Text)
    requires Sorted(x) && Sorted(y) && Reduced(x, red) == Reduced(y, red) && Reduced(x, red).Ok?
    ensures SameKey(red, k, ValuesOf(x, k), ValuesOf(y, k))
  {
    var out := Reduced(x, red).value;
    var v: Text -> seq<Text> := q => ValuesOf(x, q);
    var w: Text -> seq<Text> := q => ValuesOf(y, q);
    ReducedGroups(x, red);
    ReducedGroups(y, red);
    assert v(k) != [] <==> HasKey(out, k);
    assert w(k) != [] <==> HasKey(out, k);
  }

  // ---------------------------------------------------------------- when output is identical

  /** Without c, the output is the same, whatever matching reducer there is and
      however a partition's records were batched. */
  ghost predicate Transparent(c: Total)
  {
    forall red: Reducer, batches: seq<seq<Record>> | Matches(red, c) && AllPrimary(batches) ::
      Reduced(Arranged(Stored(batches, Some(Plain(c)))), red) == Reduced(Arranged(Flatten(batches)), red)
  }

  /** The contract as the shuffle needs it: values are sorted before they are
      combined, and what they were combined into is sorted again. */
  ghost predicate SortedLaw(c: Total)
  {
    forall k, a, b ::
      Ran(c, k, InOrder(Ran(c, k, InOrder(a)) + Ran(c, k, InOrder(b)))) == Ran(c, k, InOrder(a + b))
  }

  /** No key loses all of its values. */
  ghost predicate NeverEmpties(c: Total)
  {
    forall k, values | values != [] :: c(k, InOrder(values)) != []
  }

  lemma OrderedPieces(c: Total)
    requires SortedLaw(c)
    ensures Pieces(Ordered(c))
  {
    var f := Ordered(c);
    forall k ensures f(k, []) == [] {
      InOrderEmpty([]);
    }
    forall k, a, b ensures f(k, f(k, a) + f(k, b)) == f(k, a + b) {
      assert Ran(c, k, InOrder(Ran(c, k, InOrder(a)) + Ran(c, k, InOrder(b)))) == Ran(c, k, InOrder(a + b));
    }
  }

  lemma OrderedEmpty(c: Total, k: Text, values: seq<Text>)
    requires NeverEmpties(c)
    ensures Ordered(c)(k, values) == [] <==> values == []
  {
    InOrderEmpty(values);
  }

  /** A combiner that keeps the sorted law answers for every key as without it. */
  lemma KeySame(c: Total, red: Reducer, k: Text, parts: seq<seq<Text>>)
    requires SortedLaw(c) && NeverEmpties(c) && Matches(red, c)
    ensures SameKey(red, k, InOrder(EachCombined(Ordered(c), k, parts)), InOrder(Joined(parts)))
  {
    var each, all := EachCombined(Ordered(c), k, parts), Joined(parts);
    var x, y := InOrder(each), InOrder(all);
    OrderedPieces(c);
    LawForAll(Ordered(c), k, parts);
    assert Ran(c, k, x) == Ran(c, k, y);
    OrderedEmpty(c, k, each);
    OrderedEmpty(c, k, all);
    InOrderEmpty(each);
    InOrderEmpty(all);
    if x != [] {
      assert Answer(red, k, c(k, x)) == Answer(red, k, x) && Answer(red, k, c(k, y)) == Answer(red, k, y);
    }
  }

  lemma Suffices(c: Total, red: Reducer, batches: seq<seq<Record>>)
    requires SortedLaw(c) && NeverEmpties(c) && Matches(red, c) && AllPrimary(batches)
    ensures Reduced(Arranged(Stored(batches, Some(Plain(c)))), red) == Reduced(Arranged(Flatten(batches)), red)
  {
    var x, y := Arranged(Stored(batches, Some(Plain(c)))), Arranged(Flatten(batches));
    forall k ensures SameKey(red, k, ValuesOf(x, k), ValuesOf(y, k)) {
      Given(batches, c, k);
      KeySame(c, red, k, BatchValues(batches, k));
    }
    SameOutput(x, y, red);
  }

  // ---------------------------------------------------------------- and when it is not

  /** Tells whether a key's values combine into target. */
  function Telling(c: Total, target: seq<Text>): Reducer
  {
    Reducer((k, values) => false, (k, values) => Ok(if Ran(c, k, values) == target then [1] else []))
  }

  lemma {:induction false} TellingReads(c: Total, target: seq<Text>, k: Text, values: seq<Text>, n: nat)
    requires n <= |values|
    ensures Taken(Telling(c, target), k, values, n) == values
    decreases |values| - n
  {
    if n < |values| {
      TellingReads(c, target, k, values, n + 1);
    } else {
      assert values[..n] == values;
    }
  }

  lemma TellingAnswers(c: Total, target: seq<Text>, k: Text, values: seq<Text>)
    ensures Answer(Telling(c, target), k, values) == Ok(if Ran(c, k, values) == target then [1] else [])
  {
    TellingReads(c, target, k, values, 0);
  }

  lemma TellingMatches(c: Total, target: seq<Text>)
    requires Settles(c)
    ensures Matches(Telling(c, target), c)
  {
    forall k, values | values != []
      ensures Answer(Telling(c, target), k, c(k, values)) == Answer(Telling(c, target), k, values)
    {
      TellingAnswers(c, target, k, c(k, values));
      TellingAnswers(c, target, k, values);
      assert Ran(c, k, Ran(c, k, values)) == Ran(c, k, values);
    }
  }

  lemma TellingNeverFails(c: Total, target: seq<Text>, records: seq<Record>)
    requires Sorted(records)
    ensures Reduced(records, Telling(c, target)).Ok?
  {
    ReducedFails(records, Telling(c, target));
    forall k ensures !Fails(records, Telling(c, target), k) {
      TellingAnswers(c, target, k, ValuesOf(records, k));
    }
  }

  lemma BatchOf(k: Text, values: seq<Text>)
    ensures OnlyPrimary(Keyed(k, [], values)) && ValuesOf(Keyed(k, [], values), k) == values
  {
    var batch := Keyed(k, [], values);
    ValuesOfKey(batch, k);
    assert Values(batch) == values;
  }

  lemma JoinedSnoc(parts: seq<seq<Text>>, last: seq<Text>)
    ensures Joined(parts + [last]) == Joined(parts) + last
  {
    assert (parts + [last])[..|parts|] == parts;
  }

  lemma EachSnoc(f: Total, k: Text, parts: seq<seq<Text>>, last: seq<Text>)
    ensures EachCombined(f, k, parts + [last]) == EachCombined(f, k, parts) + f(k, last)
  {
    assert (parts + [last])[..|parts|] == parts;
  }

  lemma TwoParts(f: Total, k: Text, a: seq<Text>, b: seq<Text>, parts: seq<seq<Text>>)
    requires parts == [a, b]
    ensures Joined(parts) == a + b && EachCombined(f, k, parts) == f(k, a) + f(k, b)
  {
    JoinedSnoc([], a);
    JoinedSnoc([a], b);
    EachSnoc(f, k, [], a);
    EachSnoc(f, k, [a], b);
    assert [] + [a] == [a] && [a] + [b] == parts;
  }

  /** Under a transparent combiner, a key is told of any target what it is told
      without it. */
  lemma ToldAlike(c: Total, batches: seq<seq<Record>>, k: Text, target: seq<Text>)
    requires Settles(c) && Transparent(c) && AllPrimary(batches)
    ensures SameKey(Telling(c, target), k, InOrder(EachCombined(Ordered(c), k, BatchValues(batches, k))),
                    InOrder(Joined(BatchValues(batches, k))))
  {
    var red := Telling(c, target);
    TellingMatches(c, target);
    var x, y := Arranged(Stored(batches, Some(Plain(c)))), Arranged(Flatten(batches));
    assert Reduced(x, red) == Reduced(y, red);
    TellingNeverFails(c, target, x);
    OutputSame(x, y, red, k);
    Given(batches, c, k);
  }

  lemma TwoBatches(c: Total, k: Text, a: seq<Text>, b: seq<Text>, target: seq<Text>)
    requires Settles(c) && Transparent(c)
    ensures SameKey(Telling(c, target), k, InOrder(Ran(c, k, InOrder(a)) + Ran(c, k, InOrder(b))), InOrder(a + b))
  {
    var x, y := Keyed(k, [], a), Keyed(k, [], b);
    var batches := [x, y];
    BatchOf(k, a);
    BatchOf(k, b);
    ToldAlike(c, batches, k, target);
    TwoParts(Ordered(c), k, a, b, BatchValues(batches, k));
  }

  lemma NeedsLaw(c: Total, k: Text, a: seq<Text>, b: seq<Text>)
    requires Settles(c) && Transparent(c)
    ensures Ran(c, k, InOrder(Ran(c, k, InOrder(a)) + Ran(c, k, InOrder(b)))) == Ran(c, k, InOrder(a + b))
  {
    var x, y := InOrder(Ran(c, k, InOrder(a)) + Ran(c, k, InOrder(b))), InOrder(a + b);
    var target := Ran(c, k, y);
    TwoBatches(c, k, a, b, target);
    TellingAnswers(c, target, k, x);
    TellingAnswers(c, target, k, y);
  }

  lemma NeedsValues(c: Total, k: Text, values: seq<Text>)
    requires Settles(c) && Transparent(c) && values != []
    ensures c(k, InOrder(values)) != []
  {
    TwoBatches(c, k, values, [], []);
    InOrderEmpty([]);
    InOrderEmpty(values);
    var got := Ran(c, k, InOrder(values));
    assert values + [] == values && got + [] == got;
    InOrderEmpty(got);
  }

  /** Output is identical without the combiner, for every matching reducer and every
      placement of the flushes, exactly when the contract holds of values that are
      sorted before they are combined, and no key loses all of its values. */
  lemma TransparentExactlyWhen(c: Total)
    requires Settles(c)
    ensures Transparent(c) <==> SortedLaw(c) && NeverEmpties(c)
  {
    if SortedLaw(c) && NeverEmpties(c) {
      forall red: Reducer, batches: seq<seq<Record>> | Matches(red, c) && AllPrimary(batches)
        ensures Reduced(Arranged(Stored(batches, Some(Plain(c)))), red) == Reduced(Arranged(Flatten(batches)), red)
      {
        Suffices(c, red, batches);
      }
    }
    if Transparent(c) {
      forall k, a, b
        ensures Ran(c, k, InOrder(Ran(c, k, InOrder(a)) + Ran(c, k, InOrder(b)))) == Ran(c, k, InOrder(a + b))
      {
        NeedsLaw(c, k, a, b);
      }
      forall k, values | values != [] ensures c(k, InOrder(values)) != [] {
        NeedsValues(c, k, values);
      }
    }
  }

  /** However a partition's records were batched, c leaves red's output as it is
      without a combiner, as long as c does not fail. */
  ghost predicate Harmless(c: Option<Combiner>, red: Reducer)
  {
    forall batches: seq<seq<Record>> | Fit(batches, c) ::
      Reduced(Arranged(Stored(batches, c)), red) == Reduced(Arranged(Flatten(batches)), red)
  }

  /** Batches that a mapper could flush through c: without secondary keys, if there
      is a combiner, and none of them failing. */
  ghost predicate Fit(batches: seq<seq<Record>>, c: Option<Combiner>)
  {
    && (c.Some? ==> AllPrimary(batches))
    && forall i | 0 <= i < |batches| :: Prepared(batches[i], c).Ok?
  }

  lemma TransparentHarmless(c: Total, red: Reducer)
    requires Transparent(c) && Matches(red, c)
    ensures Harmless(Some(Plain(c)), red)
  {
  }

  lemma NoneHarmless(red: Reducer)
    ensures Harmless(None, red)
  {
    forall batches: seq<seq<Record>>
      ensures Reduced(Arranged(Stored(batches, None)), red) == Reduced(Arranged(Flatten(batches)), red)
    {
      StoredPlain(batches);
      SortedUnique(Arranged(Stored(batches, None)), Arranged(Flatten(batches)));
    }
  }

  /** The order of the values does not matter. */
  ghost predicate OrderFree(c: Total)
  {
    forall k, a, b | multiset(a) == multiset(b) :: c(k, a) == c(k, b)
  }

  /** So the contract is enough of combiners that ignore the order of values and
      leave every key some. */
  lemma OrderFreeTransparent(c: Total)
    requires Law(c) && OrderFree(c) && forall k, values | values != [] :: c(k, values) != []
    ensures Transparent(c)
  {
    LawSettles(c);
    forall k, a, b
      ensures Ran(c, k, InOrder(Ran(c, k, InOrder(a)) + Ran(c, k, InOrder(b)))) == Ran(c, k, InOrder(a + b))
    {
      RanInOrder(c, k, a);
      RanInOrder(c, k, b);
      RanInOrder(c, k, Ran(c, k, a) + Ran(c, k, b));
      RanInOrder(c, k, a + b);
      assert Ran(c, k, Ran(c, k, a) + Ran(c, k, b)) == Ran(c, k, a + b);
    }
    forall k, values | values != [] ensures c(k, InOrder(values)) != [] {
      InOrderEmpty(values);
    }
    TransparentExactlyWhen(c);
  }

  lemma RanInOrder(c: Total, k: Text, values: seq<Text>)
    requires OrderFree(c)
    ensures Ran(c, k, InOrder(values)) == Ran(c, k, values)
  {
    InOrderKeeps(values);
    InOrderEmpty(values);
  }

  // ---------------------------------------------------------------- the contract alone is not enough

  function Concat(values: seq<Text>): Text
  {
    if values == [] then [] else values[0] + Concat(values[1..])
  }

  /** Joins a key's values into one. */
  function Join(k: Text, values: seq<Text>): seq<Text>
  {
    if values == [] then [] else [Concat(values)]
  }

  const JOINER := Reducer((k, values) => false, (k, values) => Ok(Concat(values)))

  lemma {:induction false} ConcatAppend(a: seq<Text>, b: seq<Text>)
    ensures Concat(a + b) == Concat(a) + Concat(b)
  {
    if a == [] {
      assert a + b == b;
    } else {
      ConcatAppend(a[1..], b);
      assert (a + b)[1..] == a[1..] + b;
      Seqs.Assoc(a[0], Concat(a[1..]), Concat(b));
    }
  }

  lemma {:induction false} JoinerReadsAll(k: Text, values: seq<Text>, n: nat)
    requires n <= |values|
    ensures Taken(JOINER, k, values, n) == values
    decreases |values| - n
  {
    if n < |values| {
      JoinerReadsAll(k, values, n + 1);
    } else {
      assert values[..n] == values;
    }
  }

  lemma JoinAnswer(k: Text, values: seq<Text>)
    ensures Answer(JOINER, k, values) == Ok(Concat(values))
  {
    JoinerReadsAll(k, values, 0);
  }

  lemma ConcatOne(t: Text)
    ensures Concat([t]) == t
  {
    assert [t][1..] == [];
  }

  lemma JoinLawful()
    ensures Law(Join) && Matches(JOINER, Join)
  {
    forall k, a, b ensures Ran(Join, k, Ran(Join, k, a) + Ran(Join, k, b)) == Ran(Join, k, a + b) {
      ConcatAppend(Join(k, a), Join(k, b));
      ConcatAppend(a, b);
      if a != [] {
        ConcatOne(Concat(a));
      }
      if b != [] {
        ConcatOne(Concat(b));
      }
    }
    forall k, values | values != [] ensures Answer(JOINER, k, Join(k, values)) == Answer(JOINER, k, values) {
      JoinAnswer(k, values);
      JoinAnswer(k, Join(k, values));
      ConcatOne(Concat(values));
    }
  }

  predicate NotAfter(a: Text, b: Text) { a == b || Less(a, b) }

  predicate Increasing(values: seq<Text>)
  {
    forall i, j | 0 <= i < j < |values| :: NotAfter(values[i], values[j])
  }

  lemma InOrderIs(values: seq<Text>, sorted: seq<Text>)
    requires multiset(values) == multiset(sorted) && Increasing(sorted)
    ensures InOrder(values) == sorted
  {
    var x := Keyed([], [], sorted);
    forall i, j | 0 <= i < j < |x| ensures AtMost(x[i], x[j]) {
      assert NotAfter(sorted[i], sorted[j]);
    }
    SortedUnique(Arranged(x), x);
    InOrderAlike(values, sorted);
    assert Values(x) == sorted;
  }

  lemma InOrderTwo(a: Text, b: Text, two: seq<Text>)
    requires NotAfter(a, b) && two == [a, b]
    ensures InOrder(two) == two
  {
    InOrderIs(two, two);
  }

  lemma IncreasingThree(three: seq<Text>)
    requires |three| == 3 && NotAfter(three[0], three[1]) && NotAfter(three[1], three[2]) &&
             NotAfter(three[0], three[2])
    ensures Increasing(three)
  {
    forall i, j | 0 <= i < j < |three| ensures NotAfter(three[i], three[j]) {
    }
  }

  lemma InOrderThree(a: Text, b: Text, c: Text, given: seq<Text>, three: seq<Text>)
    requires NotAfter(a, b) && NotAfter(b, c) && NotAfter(a, c) && given == [a, c, b] && three == [a, b, c]
    ensures InOrder(given) == three
  {
    Seqs.Swapped(a, b, c);
    IncreasingThree(three);
    InOrderIs(given, three);
  }

  /** Three values where joining the first and the last comes out before the middle. */
  predicate Clash(a: Text, b: Text, c: Text)
  {
    NotAfter(a, b) && NotAfter(b, c) && NotAfter(a, c) && NotAfter(a + c, b) && (a + c) + b != a + (b + c)
  }

  lemma JoinTwo(a: Text, b: Text)
    ensures Join([], [a, b]) == [a + b] && Concat([a, b]) == a + b
  {
    assert [a, b] == [a] + [b];
    ConcatAppend([a], [b]);
    ConcatOne(a);
    ConcatOne(b);
  }

  lemma ConcatThree(a: Text, b: Text, c: Text)
    ensures Concat([a, b, c]) == a + (b + c)
  {
    assert [a, b, c] == [a] + [b, c];
    ConcatAppend([a], [b, c]);
    ConcatOne(a);
    JoinTwo(b, c);
  }

  /** What the joiner is given with the combiner, and without. */
  lemma JoinGiven(a: Text, b: Text, c: Text, parts: seq<seq<Text>>)
    requires Clash(a, b, c) && parts == [[a, c], [b]]
    ensures InOrder(EachCombined(Ordered(Join), [], parts)) == [a + c, b] && InOrder(Joined(parts)) == [a, b, c]
  {
    InOrderTwo(a, c, [a, c]);
    InOrderIs([b], [b]);
    JoinTwo(a, c);
    ConcatOne(b);
    TwoParts(Ordered(Join), [], [a, c], [b], parts);
    assert [a + c] + [b] == [a + c, b] && [a, c] + [b] == [a, c, b];
    InOrderTwo(a + c, b, [a + c, b]);
    InOrderThree(a, b, c, [a, c, b], [a, b, c]);
  }

  lemma JoinerNeverFails(records: seq<Record>)
    requires Sorted(records)
    ensures Reduced(records, JOINER).Ok?
  {
    ReducedFails(records, JOINER);
    forall k ensures !Fails(records, JOINER, k) {
      JoinAnswer(k, ValuesOf(records, k));
    }
  }

  /** The same reducer, the same batches: the outputs with and without c differ. */
  ghost predicate Changes(c: Total, red: Reducer, batches: seq<seq<Record>>)
  {
    Reduced(Arranged(Stored(batches, Some(Plain(c)))), red) != Reduced(Arranged(Flatten(batches)), red)
  }

  lemma JoinChanges(a: Text, b: Text, c: Text, batches: seq<seq<Record>>)
    requires Clash(a, b, c) && batches == [[Record([], [], a), Record([], [], c)], [Record([], [], b)]]
    ensures Changes(Join, JOINER, batches)
  {
    var ac, b1 := [Record([], [], a), Record([], [], c)], [Record([], [], b)];
    assert ac == Keyed([], [], [a, c]) && b1 == Keyed([], [], [b]);
    BatchOf([], [a, c]);
    BatchOf([], [b]);
    assert batches == [ac, b1] && BatchValues(batches, []) == [[a, c], [b]];
    Given(batches, Join, []);
    JoinGiven(a, b, c, BatchValues(batches, []));
    var x, y := Arranged(Stored(batches, Some(Plain(Join)))), Arranged(Flatten(batches));
    JoinAnswer([], [a + c, b]);
    JoinAnswer([], [a, b, c]);
    JoinTwo(a + c, b);
    ConcatThree(a, b, c);
    JoinerNeverFails(x);
    if Reduced(x, JOINER) == Reduced(y, JOINER) {
      OutputSame(x, y, JOINER, []);
    }
  }

  function Zero(k: Text): nat { 0 }

  /** A write to the only partition there is. */
  lemma WritesOne(b: Buffers, open: seq<Record>, done: seq<seq<Record>>, r: Record, max: int)
    requires b == Buffers([open], [done])
    ensures Writing(b, 0, r, max) ==
            if Bytes(open) + RecordBytes(r) >= max then Buffers([[]], [done + [open + [r]]])
            else Buffers([open + [r]], [done])
  {
    var more := open + [r];
    BytesSnoc(open, r);
    assert Appending(b, 0, r) == Buffers([more], [done]);
    var sizes := Sizes([more]);
    assert sizes[..0] == [];
    assert Sum(sizes) == Bytes(more) && FirstLargest(sizes) == 0;
    assert Flushing(Buffers([more], [done]), 0) == Buffers([[]], [done + [more]]);
  }

  lemma WriteStep(emits: seq<(Text, Text)>, e: (Text, Text), r: Record, open: seq<Record>, done: seq<seq<Record>>,
                  max: int)
    requires WritingAll(emits, Zero, 1, max) == Buffers([open], [done]) && r == Record(e.0, [], e.1)
    ensures WritingAll(emits + [e], Zero, 1, max) ==
            if Bytes(open) + RecordBytes(r) >= max then Buffers([[]], [done + [open + [r]]])
            else Buffers([open + [r]], [done])
  {
    WritesLast(emits, e, max);
    WritesOne(Buffers([open], [done]), open, done, r, max);
  }

  lemma FirstTwo(x: (Text, Text), y: (Text, Text), rx: Record, ry: Record, max: int)
    requires rx == Record(x.0, [], x.1) && ry == Record(y.0, [], y.1) && max == RecordBytes(rx) + RecordBytes(ry)
    ensures WritingAll([x, y], Zero, 1, max) == Buffers([[]], [[[rx, ry]]])
  {
    assert Opened(1) == Buffers([[]], [[]]);
    assert [] + [x] == [x] && [x] + [y] == [x, y] && [] + [rx] == [rx] && [rx] + [ry] == [rx, ry];
    BytesSnoc([], rx);
    WriteStep([], x, rx, [], [], max);
    WriteStep([x], y, ry, [rx], [], max);
    assert [] + [[rx, ry]] == [[rx, ry]];
  }

  /** One partition, and a bound that the first two records reach. */
  lemma JoinBatches(x: (Text, Text), y: (Text, Text), z: (Text, Text), rx: Record, ry: Record, rz: Record,
                    emits: seq<(Text, Text)>, max: int)
    requires rx == Record(x.0, [], x.1) && ry == Record(y.0, [], y.1) && rz == Record(z.0, [], z.1)
    requires emits == [x, y, z] && max == RecordBytes(rx) + RecordBytes(ry) && RecordBytes(rz) < max
    ensures BatchesOf(emits, Zero, 1, max) == [[[rx, ry], [rz]]]
  {
    FirstTwo(x, y, rx, ry, max);
    assert [x, y] + [z] == emits && [] + [rz] == [rz];
    WriteStep([x, y], z, rz, [], [[rx, ry]], max);
    FlushesOne(WritingAll(emits, Zero, 1, max), [rz], [[rx, ry]]);
    assert [[rx, ry]] + [[rz]] == [[rx, ry], [rz]];
  }

  lemma FlushesOne(b: Buffers, open: seq<Record>, done: seq<seq<Record>>)
    requires b == Buffers([open], [done]) && open != []
    ensures FlushingFirst(b, 1).flushed == [done + [open]]
  {
    assert FlushingFirst(b, 0) == b;
    assert Flushing(b, 0).flushed == [done + [open]];
  }

  lemma WritesLast(emits: seq<(Text, Text)>, e: (Text, Text), max: int)
    ensures WritingAll(emits + [e], Zero, 1, max) ==
            Writing(WritingAll(emits, Zero, 1, max), 0, Record(e.0, [], e.1), max)
  {
    assert (emits + [e])[..|emits|] == emits;
  }

  /** What one attempt stores, with c, is reduced to something else than without. */
  ghost predicate AttemptChanges(c: Total, red: Reducer, emits: seq<(Text, Text)>, max: int)
  {
    Changes(c, red, BatchesOf(emits, Zero, 1, max)[0])
  }

  lemma JoinAttempt(a: Text, b: Text, c: Text, emits: seq<(Text, Text)>, max: int)
    requires Clash(a, b, c) && emits == [([], a), ([], c), ([], b)] && |b| <= |a| + |c|
    requires max == RecordBytes(Record([], [], a)) + RecordBytes(Record([], [], c))
    ensures AttemptChanges(Join, JOINER, emits, max)
  {
    var batches := BatchesOf(emits, Zero, 1, max);
    JoinBatches(([], a), ([], c), ([], b), Record([], [], a), Record([], [], c), Record([], [], b), emits, max);
    JoinChanges(a, b, c, batches[0]);
  }

  lemma Letters() returns (a: Text, b: Text, c: Text)
    ensures Clash(a, b, c) && |a| == |b| == |c| == 1
  {
    a, b, c := [97], [98], [99];
    assert ((a + c) + b)[1] != (a + (b + c))[1];
  }

  /** Some attempt's output is changed. */
  ghost predicate Harms(c: Total, red: Reducer)
  {
    exists emits: seq<(Text, Text)>, max: int :: max > 0 && AttemptChanges(c, red, emits, max)
  }

  /** A combiner may keep its contract, and match its reducer, and still change the
      output. With the three emits "a", "c" and "b" of one key, and a bound that the
      first two reach, joining gives "acb" where the reducer alone gives "abc". */
  lemma LawIsNotEnough()
    ensures exists c: Total, red: Reducer :: Law(c) && Matches(red, c) && Harms(c, red)
  {
    JoinLawful();
    SomeHarm();
    assert Law(Join) && Matches(JOINER, Join) && Harms(Join, JOINER);
  }

  lemma SomeHarm()
    ensures Harms(Join, JOINER)
  {
    var a, b, c := Letters();
    var max := RecordBytes(Record([], [], a)) + RecordBytes(Record([], [], c));
    JoinHarms(a, b, c, [([], a), ([], c), ([], b)], max);
  }

  lemma JoinHarms(a: Text, b: Text, c: Text, emits: seq<(Text, Text)>, max: int)
    requires Clash(a, b, c) && emits == [([], a), ([], c), ([], b)] && |b| <= |a| + |c|
    requires max == RecordBytes(Record([], [], a)) + RecordBytes(Record([], [], c))
    ensures Harms(Join, JOINER)
  {
    JoinAttempt(a, b, c, emits, max);
  }
}
