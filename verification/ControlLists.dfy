/** The lists the run's controller works with: partitions in order, and pointers. */
module ControlLists {
  import opened Texts
  import opened Outcomes
  import opened Widths
  import opened Decimals
  import opened RunProtocol

  predicate Increasing(s: seq<int>)
  {
    forall i, j | 0 <= i < j < |s| :: s[i] < s[j]
  }

  function Members(s: seq<int>): set<int> { set x | x in s }

  /** slices.BinarySearch: where p is in parts, or belongs. */
  method Search(parts: seq<int>, p: int) returns (at: nat, found: bool)
    requires Increasing(parts)
    ensures at <= |parts| && (forall k | 0 <= k < at :: parts[k] < p) && (forall k | at <= k < |parts| :: p <= parts[k])
    ensures found <==> p in parts
    ensures found ==> at < |parts| && parts[at] == p
  {
    at := 0;
    var hi := |parts|;
    while at < hi
      invariant at <= hi <= |parts|
      invariant forall k | 0 <= k < at :: parts[k] < p
      invariant forall k | hi <= k < |parts| :: p <= parts[k]
    {
      var mid := (at + hi) / 2;
      if parts[mid] < p {
        at := mid + 1;
      } else {
        hi := mid;
      }
    }
    found := at < |parts| && parts[at] == p;
  }

  /** slices.Insert where a search says. */
  lemma InsertedAt(parts: seq<int>, at: nat, p: int)
    requires Increasing(parts) && at <= |parts| && p !in parts
    requires (forall k | 0 <= k < at :: parts[k] < p) && (forall k | at <= k < |parts| :: p <= parts[k])
    ensures Increasing(parts[..at] + [p] + parts[at..])
    ensures forall x :: x in parts[..at] + [p] + parts[at..] <==> x in parts || x == p
  {
    var more := parts[..at] + [p] + parts[at..];
    forall i | 0 <= i < |more| ensures more[i] == if i < at then parts[i] else if i == at then p else parts[i - 1] {
    }
    assert parts == parts[..at] + parts[at..];
  }

  /** A search, and an insertion if p is missing. */
  method Include(parts: seq<int>, p: int) returns (more: seq<int>)
    requires Increasing(parts)
    ensures Increasing(more) && Members(more) == Members(parts) + {p}
  {
    var at, found := Search(parts, p);
    if found {
      return parts;
    }
    InsertedAt(parts, at, p);
    more := parts[..at] + [p] + parts[at..];
  }

  // ---------------------------------------------------------------- keys

  const SLASH: Byte := 47

  /** splitPrefix, mapOutPrefix and resultPrefix. */
  const SPLIT: Text := [115, 112, 108, 105, 116, SLASH]
  const MAP_OUT: Text := [109, 97, 112, 111, 117, 116, SLASH]
  const RESULT: Text := [114, 101, 115, 117, 108, 116, SLASH]

  function SplitDocKey(n: nat): Text { SPLIT + Padded(n, 6) }

  function ResultDocKey(p: nat): Text { RESULT + Padded(p, 6) }

  function MapOutDocKey(p: nat, splitKey: Text): Text
  {
    MAP_OUT + (Padded(p, 6) + ([SLASH] + TrimPrefix(splitKey, SPLIT)))
  }

  /** strings.TrimPrefix. */
  function TrimPrefix(t: Text, prefix: Text): Text
  {
    if prefix <= t then t[|prefix|..] else t
  }

  /** What strings.Cut finds before a byte. */
  function Before(t: Text, sep: Byte): Text
  {
    if t == [] || t[0] == sep then [] else [t[0]] + Before(t[1..], sep)
  }

  /** The partition that a key under prefix names. */
  function KeyNumber(key: Text, prefix: Text): Outcome<int>
  {
    Atoi(Before(TrimPrefix(key, prefix), SLASH))
  }

  lemma {:induction false} BeforeStops(t: Text, sep: Byte, rest: Text)
    requires sep !in t && (rest == [] || rest[0] == sep)
    ensures Before(t + rest, sep) == t
  {
    if t != [] {
      BeforeStops(t[1..], sep, rest);
      assert (t + rest)[1..] == t[1..] + rest;
      assert sep !in t[1..];
    }
  }

  lemma NumberNamed(prefix: Text, p: nat, rest: Text)
    requires p < TWO_63 && (rest == [] || rest[0] == SLASH)
    ensures KeyNumber(prefix + (Padded(p, 6) + rest), prefix) == Ok(p)
  {
    var num, key := Padded(p, 6), prefix + (Padded(p, 6) + rest);
    assert SLASH !in num && key[|prefix|..] == num + rest;
    BeforeStops(num, SLASH, rest);
    PaddedAtoi(p, 6);
  }

  /** The keys of pointers and of markers name the partition they were made for. */
  lemma KeysName(p: nat, splitKey: Text)
    requires p < TWO_63
    ensures KeyNumber(MapOutDocKey(p, splitKey), MAP_OUT) == Ok(p) && KeyNumber(ResultDocKey(p), RESULT) == Ok(p)
  {
    NumberNamed(MAP_OUT, p, [SLASH] + TrimPrefix(splitKey, SPLIT));
    NumberNamed(RESULT, p, []);
    assert Padded(p, 6) + [] == Padded(p, 6);
  }

  function Naming(prefix: Text): Text -> Outcome<int> { key => KeyNumber(key, prefix) }

  /** The partitions that keys name. */
  function Parsed(keys: seq<Text>, names: Text -> Outcome<int>): set<int>
  {
    set key | key in keys && names(key).Ok? :: names(key).value
  }

  /** keys are those of the pointer docs, in any order and with repeats. */
  ghost predicate PointerKeys(pointers: map<PointerID, Run>, keys: seq<Text>)
  {
    forall key :: key in keys <==> exists id :: id in pointers && KeyOf(pointers, id) == Some(key)
  }

  function KeyOf(pointers: map<PointerID, Run>, id: PointerID): Option<Text>
    requires id in pointers
  {
    var p := pointers[id].partition;
    if 0 <= p < TWO_63 then Some(MapOutDocKey(p, SplitDocKey(id.split))) else None
  }

  /** So listing the pointers' keys finds their partitions, and never fails. */
  lemma ListedParts(pointers: map<PointerID, Run>, keys: seq<Text>)
    requires PointerKeys(pointers, keys) && forall id | id in pointers :: 0 <= pointers[id].partition < TWO_63
    ensures (forall key | key in keys :: KeyNumber(key, MAP_OUT).Ok?) &&
            Parsed(keys, Naming(MAP_OUT)) == PartsOf(pointers)
  {
    forall id | id in pointers
      ensures KeyOf(pointers, id).value in keys &&
              KeyNumber(KeyOf(pointers, id).value, MAP_OUT) == Ok(pointers[id].partition)
    {
      KeysName(pointers[id].partition, SplitDocKey(id.split));
    }
    forall key | key in keys
      ensures KeyNumber(key, MAP_OUT).Ok? && KeyNumber(key, MAP_OUT).value in PartsOf(pointers)
    {
      var id :| id in pointers && KeyOf(pointers, id) == Some(key);
    }
  }

  lemma ParsedMore(keys: seq<Text>, key: Text, names: Text -> Outcome<int>)
    ensures Parsed(keys + [key], names) == Parsed(keys, names) + if names(key).Ok? then {names(key).value} else {}
  {
  }

  /** keyPartitions: the partitions the keys name, in order and without repeats. It
      fails exactly when some key names none. */
  method KeyPartitions(keys: seq<Text>, prefix: Text) returns (parts: Outcome<seq<int>>)
    ensures parts.Failed? <==> exists key :: key in keys && KeyNumber(key, prefix).Failed?
    ensures parts.Ok? ==> Increasing(parts.value) && Members(parts.value) == Parsed(keys, Naming(prefix))
  {
    parts := Partitions(keys, Naming(prefix));
  }

  method Partitions(keys: seq<Text>, names: Text -> Outcome<int>) returns (parts: Outcome<seq<int>>)
    ensures parts.Failed? <==> exists key :: key in keys && names(key).Failed?
    ensures parts.Ok? ==> Increasing(parts.value) && Members(parts.value) == Parsed(keys, names)
  {
    var found: seq<int> := [];
    for n := 0 to |keys|
      invariant forall key | key in keys[..n] :: names(key).Ok?
      invariant Increasing(found) && Members(found) == Parsed(keys[..n], names)
    {
      var number := names(keys[n]);
      if number.Failed? {
        return Failed;
      }
      ParsedMore(keys[..n], keys[n], names);
      assert keys[..n + 1] == keys[..n] + [keys[n]];
      found := Include(found, number.value);
    }
    assert keys[..|keys|] == keys;
    parts := Ok(found);
  }

  /** What a reduce check tells Finish: the partitions with no marker, in order. */
  method EmptyPartitions(n: nat, done: seq<int>) returns (empty: seq<int>)
    requires Increasing(done)
    ensures Increasing(empty) && Members(empty) == AllPartitions(n) - Members(done)
  {
    empty := [];
    for p := 0 to n
      invariant Increasing(empty) && (forall k | 0 <= k < |empty| :: empty[k] < p)
      invariant forall x :: x in empty <==> 0 <= x < p && x !in done
    {
      var _, found := Search(done, p);
      if !found {
        empty := empty + [p];
      }
    }
    assert forall x :: x in Members(empty) <==> x in AllPartitions(n) - Members(done);
  }

  function Named(ids: seq<PointerID>): set<PointerID> { set id | id in ids }

  predicate Distinct(ids: seq<PointerID>)
  {
    forall i, j | 0 <= i < j < |ids| :: ids[i] != ids[j]
  }

  /** samePointers. */
  method CompareIDs(published: seq<PointerID>, consumed: seq<PointerID>) returns (same: bool)
    requires Distinct(published)
    ensures same <==> SamePointers(Named(published), consumed)
  {
    Count(published);
    if |published| != |consumed| {
      return false;
    }
    var ids: set<PointerID> := {};
    for i := 0 to |published|
      invariant forall id :: id in ids <==> id in published[..i]
    {
      ids := ids + {published[i]};
      assert published[..i + 1] == published[..i] + [published[i]];
    }
    assert published[..|published|] == published;
    for i := 0 to |consumed|
      invariant forall k | 0 <= k < i :: consumed[k] in ids
    {
      if consumed[i] !in ids {
        return false;
      }
    }
    same := true;
  }

  lemma {:induction false} Count(ids: seq<PointerID>)
    requires Distinct(ids)
    ensures |Named(ids)| == |ids|
  {
    if ids != [] {
      var front, last := ids[..|ids| - 1], ids[|ids| - 1];
      Count(front);
      assert ids == front + [last];
      assert Named(ids) == Named(front) + {last};
    }
  }

  lemma SubsetOfSameSize(a: set<PointerID>, b: set<PointerID>)
    requires a <= b && |a| == |b|
    ensures a == b
  {
    if a != b {
      var x :| x in b && x !in a;
      Smaller(a, b - {x});
    }
  }

  lemma {:induction false} Smaller(a: set<PointerID>, b: set<PointerID>)
    requires a <= b
    ensures |a| <= |b|
    decreases |a|
  {
    if a != {} {
      var x :| x in a;
      Smaller(a - {x}, b - {x});
    }
  }

  /** Where the consumed pointers do not repeat, the comparison says whether they are
      the published ones. */
  lemma SamePointersMeans(published: set<PointerID>, consumed: seq<PointerID>)
    requires Distinct(consumed)
    ensures SamePointers(published, consumed) <==> published == Named(consumed)
  {
    var ids := Named(consumed);
    Count(consumed);
    if SamePointers(published, consumed) {
      SubsetOfSameSize(ids, published);
    }
  }

  /** A list has as many names as elements only if none repeats. */
  lemma {:induction false} CountTells(ids: seq<PointerID>)
    ensures |Named(ids)| <= |ids| && (|Named(ids)| == |ids| ==> Distinct(ids))
  {
    if ids != [] {
      var front, last := ids[..|ids| - 1], ids[|ids| - 1];
      CountTells(front);
      assert ids == front + [last];
      assert Named(ids) == Named(front) + {last};
      if last in Named(front) {
        assert Named(ids) == Named(front);
      }
    }
  }

  /** A comparison that passes is right exactly when no consumed pointer repeats. */
  lemma PassIsRightExactlyWhen(published: set<PointerID>, consumed: seq<PointerID>)
    requires SamePointers(published, consumed)
    ensures published == Named(consumed) <==> Distinct(consumed)
  {
    CountTells(consumed);
    if Distinct(consumed) {
      SamePointersMeans(published, consumed);
    }
  }

  /** Where they do, it may be wrong: one pointer named twice passes for two. */
  lemma RepeatsPass(a: PointerID, b: PointerID)
    requires a != b
    ensures SamePointers({a, b}, [a, a]) && {a, b} != Named([a, a])
  {
    assert b in {a, b} && b !in [a, a];
  }
}
