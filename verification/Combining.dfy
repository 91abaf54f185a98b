/** Combining a sorted batch: one call of the combiner for each key. */
module Combining {
  import opened Texts
  import opened Records
  import opened Outcomes
  import Seqs

  /** A combiner sees one key's values. A value that is not valid text counts as
      a failure of the combiner that returned it. */
  type Combiner = (Text, seq<Text>) -> Outcome<seq<Text>>

  function Values(records: seq<Record>): seq<Text>
  {
    seq(|records|, i requires 0 <= i < |records| => records[i].value)
  }

  function Keyed(key: Text, secondary: Text, values: seq<Text>): seq<Record>
  {
    seq(|values|, i requires 0 <= i < |values| => Record(key, secondary, values[i]))
  }

  /** How many records at the front share the first one's key. */
  function KeyEnd(records: seq<Record>): (n: nat)
    requires records != []
    ensures 1 <= n <= |records|
    ensures forall i | 0 <= i < n :: records[i].primary == records[0].primary
    ensures n < |records| ==> records[n].primary != records[0].primary
  {
    if |records| == 1 || records[1].primary != records[0].primary then 1 else 1 + KeyEnd(records[1..])
  }

  predicate OneSecondary(records: seq<Record>)
  {
    forall i | 0 <= i < |records| :: records[i].secondary == records[0].secondary
  }

  function Then(a: seq<Record>, b: Outcome<seq<Record>>): Outcome<seq<Record>>
  {
    match b
    case Ok(rest) => Ok(a + rest)
    case Failed => Failed
  }

  function Combined(records: seq<Record>, c: Combiner): Outcome<seq<Record>>
  {
    if records == [] then Ok([])
    else
      var n := KeyEnd(records);
      if !OneSecondary(records[..n]) then Failed
      else
        match c(records[0].primary, Values(records[..n]))
        case Failed => Failed
        case Ok(values) => Then(Keyed(records[0].primary, records[0].secondary, values), Combined(records[n..], c))
  }

  lemma {:induction false} KeyEndIs(records: seq<Record>, n: nat)
    requires 1 <= n <= |records|
    requires forall i | 0 <= i < n :: records[i].primary == records[0].primary
    requires n < |records| ==> records[n].primary != records[0].primary
    ensures KeyEnd(records) == n
  {
  }

  /** The end of the key that starts at start, or nothing if its secondaries differ. */
  method KeyRange(records: seq<Record>, start: nat) returns (end: Option<nat>)
    requires start < |records|
    ensures end.Some? <==> OneSecondary(records[start..][..KeyEnd(records[start..])])
    ensures end.Some? ==> end.value == start + KeyEnd(records[start..])
  {
    var e := start + 1;
    while e < |records| && records[e].primary == records[start].primary
      invariant start < e <= |records|
      invariant forall i | start <= i < e ::
                  records[i].primary == records[start].primary && records[i].secondary == records[start].secondary
    {
      if records[e].secondary != records[start].secondary {
        ghost var rest := records[start..];
        assert rest[e - start] == records[e];
        assert forall i | 0 <= i <= e - start :: rest[i].primary == rest[0].primary;
        assert e - start < KeyEnd(rest);
        assert rest[..KeyEnd(rest)][e - start] == records[e];
        return None;
      }
      e := e + 1;
    }
    KeyEndIs(records[start..], e - start);
    end := Some(e);
  }

  /** combineRun. */
  method CombineRun(records: seq<Record>, c: Combiner) returns (r: Outcome<seq<Record>>)
    ensures r == Combined(records, c)
  {
    var out := [];
    var start := 0;
    assert records[0..] == records;
    ThenNothing(Combined(records, c));
    while start < |records|
      invariant 0 <= start <= |records|
      invariant Combined(records, c) == Then(out, Combined(records[start..], c))
    {
      var rest := records[start..];
      var end := KeyRange(records, start);
      if end.None? {
        return Failed;
      }
      var values := c(records[start].primary, Values(records[start..end.value]));
      assert records[start..end.value] == rest[..KeyEnd(rest)];
      if values.Failed? {
        return Failed;
      }
      var combined := Keyed(records[start].primary, records[start].secondary, values.value);
      assert rest[KeyEnd(rest)..] == records[end.value..];
      ThenAgain(out, combined, Combined(records[end.value..], c));
      out := out + combined;
      start := end.value;
    }
    assert records[start..] == [] && out + [] == out;
    r := Ok(out);
  }

  lemma ThenNothing(rest: Outcome<seq<Record>>)
    ensures Then([], rest) == rest
  {
    if rest.Ok? {
      assert [] + rest.value == rest.value;
    }
  }

  lemma ThenAgain(a: seq<Record>, b: seq<Record>, rest: Outcome<seq<Record>>)
    ensures Then(a, Then(b, rest)) == Then(a + b, rest)
  {
    if rest.Ok? {
      assert a + (b + rest.value) == (a + b) + rest.value;
    }
  }

  // ---------------------------------------------------------------- a key's values

  /** The values of key k, in order. */
  function ValuesOf(records: seq<Record>, k: Text): seq<Text>
  {
    if records == [] then []
    else (if records[0].primary == k then [records[0].value] else []) + ValuesOf(records[1..], k)
  }

  lemma {:induction false} ValuesAppend(a: seq<Record>, b: seq<Record>, k: Text)
    ensures ValuesOf(a + b, k) == ValuesOf(a, k) + ValuesOf(b, k)
  {
    if a == [] {
      assert a + b == b;
    } else {
      ValuesAppend(a[1..], b, k);
      assert (a + b)[1..] == a[1..] + b;
      Seqs.Assoc(if a[0].primary == k then [a[0].value] else [], ValuesOf(a[1..], k), ValuesOf(b, k));
    }
  }

  lemma {:induction false} ValuesOfKey(records: seq<Record>, k: Text)
    requires forall i | 0 <= i < |records| :: records[i].primary == k
    ensures ValuesOf(records, k) == Values(records)
  {
    if records != [] {
      ValuesOfKey(records[1..], k);
      assert Values(records) == [records[0].value] + Values(records[1..]);
    }
  }

  lemma {:induction false} NoValues(records: seq<Record>, k: Text)
    requires forall i | 0 <= i < |records| :: records[i].primary != k
    ensures ValuesOf(records, k) == []
  {
    if records != [] {
      NoValues(records[1..], k);
    }
  }

  /** Which values a key has depends only on which records there are. */
  lemma {:induction false} ValuesOfMultiset(a: seq<Record>, b: seq<Record>, k: Text)
    requires multiset(a) == multiset(b)
    ensures multiset(ValuesOf(a, k)) == multiset(ValuesOf(b, k))
  {
    if a == [] {
      assert |multiset(b)| == 0;
    } else {
      var x, y := Seqs.Around(b, a[0]);
      HeadTail(a);
      Seqs.LeftAlike(a[1..], b, a[0], x, y);
      ValuesOfMultiset(a[1..], x + y, k);
      ValuesWithout(x, a[0], y, k);
    }
  }

  lemma ValuesWithout(x: seq<Record>, r: Record, y: seq<Record>, k: Text)
    ensures multiset(ValuesOf(x + ([r] + y), k)) ==
            multiset(ValuesOf(x + y, k)) + if r.primary == k then multiset{r.value} else multiset{}
  {
    ValuesAppend(x, y, k);
    ValuesAppend(x, [r] + y, k);
    ValuesAppend([r], y, k);
    assert [r][1..] == [];
  }

  /** The combined form of the first key of records. */
  function FirstCombined(records: seq<Record>, c: Combiner): seq<Record>
    requires records != [] && Combined(records, c).Ok?
  {
    Keyed(records[0].primary, records[0].secondary, c(records[0].primary, Values(records[..KeyEnd(records)])).value)
  }

  lemma FirstValues(records: seq<Record>, c: Combiner, k: Text)
    requires records != [] && Combined(records, c).Ok?
    ensures var first := records[..KeyEnd(records)];
            if k == records[0].primary then c(k, ValuesOf(first, k)) == Ok(ValuesOf(FirstCombined(records, c), k))
            else ValuesOf(first, k) == [] && ValuesOf(FirstCombined(records, c), k) == []
  {
    var first, out := records[..KeyEnd(records)], FirstCombined(records, c);
    if k == records[0].primary {
      ValuesOfKey(first, k);
      ValuesOfKey(out, k);
      assert Values(out) == c(k, Values(first)).value;
    } else {
      NoValues(first, k);
      NoValues(out, k);
    }
  }

  lemma CombinedSplits(records: seq<Record>, c: Combiner)
    requires records != [] && Combined(records, c).Ok?
    ensures var rest := Combined(records[KeyEnd(records)..], c);
            rest.Ok? && Combined(records, c).value == FirstCombined(records, c) + rest.value
  {
  }

  /** got is what the combiner made of had. */
  ghost predicate Kept(c: Combiner, k: Text, had: seq<Text>, got: seq<Text>)
  {
    if had == [] then got == [] else c(k, had) == Ok(got)
  }

  lemma KeptApart(c: Combiner, k: Text, had: seq<Text>, got: seq<Text>, had': seq<Text>, got': seq<Text>)
    requires Kept(c, k, had, got) && Kept(c, k, had', got') && (had == [] || had' == [])
    ensures Kept(c, k, had + had', got + got')
  {
    if had == [] {
      assert had + had' == had' && got + got' == got';
    } else {
      assert had + had' == had && got + got' == got;
    }
  }

  /** What combining means: each key keeps exactly what the combiner made of all
      the values it had in the batch, and no key is added. */
  lemma {:induction false} CombinedValues(records: seq<Record>, c: Combiner, k: Text)
    requires Sorted(records) && Combined(records, c).Ok?
    ensures Kept(c, k, ValuesOf(records, k), ValuesOf(Combined(records, c).value, k))
    decreases |records|
  {
    if records != [] {
      var n := KeyEnd(records);
      var first, rest := records[..n], records[n..];
      var out, restOut := FirstCombined(records, c), Combined(rest, c);
      CombinedSplits(records, c);
      CombinedValues(rest, c, k);
      FirstKept(records, c, k);
      KeptApart(c, k, ValuesOf(first, k), ValuesOf(out, k), ValuesOf(rest, k), ValuesOf(restOut.value, k));
      ValuesAppend(out, restOut.value, k);
      ValuesAppend(first, rest, k);
      assert records == first + rest;
    }
  }

  lemma FirstKept(records: seq<Record>, c: Combiner, k: Text)
    requires Sorted(records) && records != [] && Combined(records, c).Ok?
    ensures var n := KeyEnd(records);
            && Kept(c, k, ValuesOf(records[..n], k), ValuesOf(FirstCombined(records, c), k))
            && (ValuesOf(records[..n], k) == [] || ValuesOf(records[n..], k) == [])
  {
    FirstValues(records, c, k);
    FirstHas(records, k);
  }

  /** Each key is in the first group or in the rest, not both. */
  lemma FirstHas(records: seq<Record>, k: Text)
    requires Sorted(records) && records != []
    ensures var n := KeyEnd(records);
            if k == records[0].primary then ValuesOf(records[n..], k) == [] && ValuesOf(records[..n], k) != []
            else ValuesOf(records[..n], k) == []
  {
    var n := KeyEnd(records);
    if k == records[0].primary {
      LaterKeys(records);
      NoValues(records[n..], k);
    } else {
      NoValues(records[..n], k);
    }
  }

  /** In a sorted batch a key does not come back. */
  lemma LaterKeys(records: seq<Record>)
    requires Sorted(records) && records != []
    ensures forall i | KeyEnd(records) <= i < |records| :: Less(records[0].primary, records[i].primary)
    ensures forall i | KeyEnd(records) <= i < |records| :: records[i].primary != records[0].primary
  {
    var n := KeyEnd(records);
    forall i | n <= i < |records|
      ensures Less(records[0].primary, records[i].primary) && records[i].primary != records[0].primary
    {
      assert AtMost(records[0], records[n]);
      if n < i {
        assert AtMost(records[n], records[i]);
        if records[n].primary != records[i].primary {
          LessTransitive(records[0].primary, records[n].primary, records[i].primary);
        }
      }
      LessIrreflexive(records[0].primary);
    }
  }
}
