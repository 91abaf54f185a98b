/** What a modification checks of itself and of the store before it is applied. */
module Batches {
  import Seqs
  import opened Outcomes

  /** A task by id, or a doc by its key, at a version. */
  datatype Ref = Ref(key: string, version: int)

  /** The operations on tasks, or on docs. An insert without an id has an empty key.
      arrives is empty for docs, whose arrivals name sets. */
  datatype Ops = Ops(inserts: seq<string>, changes: seq<Ref>, deletes: seq<Ref>, arrives: seq<Ref>, depends: seq<Ref>)

  /** What the store holds under a key: until at, its claimant's. */
  datatype Item = Item(version: int, claimant: string, at: int)

  // ---------------------------------------------------------------- each key once

  /** Inserts are named at a version that no stored item has. */
  function InsertRefs(inserts: seq<string>): seq<Ref>
  {
    if inserts == [] then [] else (if inserts[0] == "" then [] else [Ref(inserts[0], -1)]) + InsertRefs(inserts[1..])
  }

  /** Everything that an operation names, at its version. */
  function Named(o: Ops): seq<Ref>
  {
    o.changes + o.deletes + o.arrives + o.depends + InsertRefs(o.inserts)
  }

  predicate OnceEach(refs: seq<Ref>)
  {
    forall i, j | 0 <= i < j < |refs| :: refs[i].key != refs[j].key
  }

  predicate HasKey(refs: seq<Ref>, k: string)
  {
    exists i | 0 <= i < |refs| :: refs[i].key == k
  }

  /** deps has exactly the keys that refs name, at their versions. */
  ghost predicate Holds(deps: map<string, int>, refs: seq<Ref>)
  {
    && (forall k :: k in deps <==> HasKey(refs, k))
    && (forall i | 0 <= i < |refs| :: refs[i].key in deps && deps[refs[i].key] == refs[i].version)
  }

  lemma HoldsMore(deps: map<string, int>, refs: seq<Ref>, r: Ref)
    requires OnceEach(refs) && Holds(deps, refs) && r.key !in deps
    ensures OnceEach(refs + [r]) && Holds(deps[r.key := r.version], refs + [r])
  {
    var more := refs + [r];
    assert forall i | 0 <= i < |refs| :: more[i] == refs[i] && HasKey(refs, refs[i].key);
    assert more[|refs|] == r;
    forall k ensures HasKey(more, k) <==> HasKey(refs, k) || k == r.key {
      if HasKey(refs, k) {
        var i :| 0 <= i < |refs| && refs[i].key == k;
        assert more[i].key == k;
      }
    }
  }

  /** addTaskDep and addDocDep over a list; fails at a key that is already there. */
  method AddDeps(deps: map<string, int>, refs: seq<Ref>, ghost named: seq<Ref>) returns (r: Outcome<map<string, int>>)
    requires OnceEach(named) && Holds(deps, named)
    ensures r.Ok? <==> OnceEach(named + refs)
    ensures r.Ok? ==> Holds(r.value, named + refs)
  {
    var all := deps;
    ghost var seen := named;
    assert named + refs[..0] == named;
    for i := 0 to |refs|
      invariant seen == named + refs[..i] && OnceEach(seen) && Holds(all, seen)
    {
      if refs[i].key in all {
        Repeats(seen, refs[i], refs[i + 1..]);
        assert seen + ([refs[i]] + refs[i + 1..]) == named + refs;
        return Failed;
      }
      HoldsMore(all, seen, refs[i]);
      all := all[refs[i].key := refs[i].version];
      seen := seen + [refs[i]];
    }
    assert refs[..|refs|] == refs;
    r := Ok(all);
  }

  lemma Repeats(refs: seq<Ref>, r: Ref, rest: seq<Ref>)
    requires HasKey(refs, r.key)
    ensures !OnceEach(refs + ([r] + rest))
  {
    var all := refs + ([r] + rest);
    var i :| 0 <= i < |refs| && refs[i].key == r.key;
    assert all[i] == refs[i] && all[|refs|] == r;
  }

  lemma PrefixOnce(a: seq<Ref>, b: seq<Ref>)
    requires OnceEach(a + b)
    ensures OnceEach(a)
  {
    forall i, j | 0 <= i < j < |a| ensures a[i].key != a[j].key {
      assert (a + b)[i] == a[i] && (a + b)[j] == a[j];
    }
  }

  /** AllDependencies, for tasks or for docs: accepted exactly when no key is named
      twice, with exactly the keys that were named, at their versions. */
  method AllDependencies(o: Ops) returns (r: Outcome<map<string, int>>)
    ensures r.Ok? <==> OnceEach(Named(o))
    ensures r.Ok? ==> Holds(r.value, Named(o))
  {
    ghost var c := o.changes;
    ghost var d := c + o.deletes;
    ghost var a := d + o.arrives;
    ghost var p := a + o.depends;
    AnyPrefix(c, o.deletes, o.arrives, o.depends, InsertRefs(o.inserts));
    assert [] + c == c;
    r := AddDeps(map[], o.changes, []);
    if r.Failed? {
      return;
    }
    r := AddDeps(r.value, o.deletes, c);
    if r.Failed? {
      return;
    }
    r := AddDeps(r.value, o.arrives, d);
    if r.Failed? {
      return;
    }
    r := AddDeps(r.value, o.depends, a);
    if r.Failed? {
      return;
    }
    r := AddDeps(r.value, InsertRefs(o.inserts), p);
  }

  lemma AnyPrefix(c: seq<Ref>, d: seq<Ref>, a: seq<Ref>, p: seq<Ref>, i: seq<Ref>)
    ensures OnceEach(c + d + a + p + i) ==>
            OnceEach(c) && OnceEach(c + d) && OnceEach(c + d + a) && OnceEach(c + d + a + p)
  {
    if OnceEach(c + d + a + p + i) {
      PrefixOnce(c + d + a + p, i);
      PrefixOnce(c + d + a, p);
      PrefixOnce(c + d, a);
      PrefixOnce(c, d);
    }
  }

  // ---------------------------------------------------------------- against the store

  type Store = map<string, Item>

  /** otherwiseClaimed. */
  predicate HeldByOther(item: Item, claimant: string, now: int)
  {
    item.at > now && item.claimant != "" && item.claimant != claimant
  }

  predicate Matching(ref: Ref, found: Store) { ref.key in found && found[ref.key].version == ref.version }

  predicate Blocked(ref: Ref, found: Store, claimant: string, now: int)
  {
    Matching(ref, found) && HeldByOther(found[ref.key], claimant, now)
  }

  function Unmatched(refs: seq<Ref>, found: Store): seq<Ref>
  {
    if refs == [] then []
    else
      var last := refs[|refs| - 1];
      Unmatched(refs[..|refs| - 1], found) + if Matching(last, found) then [] else [last]
  }

  function Claimed(refs: seq<Ref>, found: Store, claimant: string, now: int): seq<Ref>
  {
    if refs == [] then []
    else
      var last := refs[|refs| - 1];
      Claimed(refs[..|refs| - 1], found, claimant, now) + if Blocked(last, found, claimant, now) then [last] else []
  }

  function Present(inserts: seq<string>, found: Store): seq<string>
  {
    if inserts == [] then []
    else
      var last := inserts[|inserts| - 1];
      Present(inserts[..|inserts| - 1], found) + if last != "" && last in found then [last] else []
  }

  /** What a DependencyError lists of one side. */
  datatype Problems = Problems(inserts: seq<string>, changes: seq<Ref>, deletes: seq<Ref>, depends: seq<Ref>,
                               claims: seq<Ref>) {
    predicate None() { inserts == [] && changes == [] && deletes == [] && depends == [] && claims == [] }
  }

  /** badChanges and badDeletes, and their doc forms. */
  method BadTargets(refs: seq<Ref>, found: Store, claimant: string, now: int)
    returns (missing: seq<Ref>, claimed: seq<Ref>)
    ensures missing == Unmatched(refs, found) && claimed == Claimed(refs, found, claimant, now)
  {
    missing, claimed := [], [];
    for i := 0 to |refs|
      invariant missing == Unmatched(refs[..i], found) && claimed == Claimed(refs[..i], found, claimant, now)
    {
      assert refs[..i + 1][..i] == refs[..i];
      if refs[i].key !in found || found[refs[i].key].version != refs[i].version {
        missing := missing + [refs[i]];
      } else if HeldByOther(found[refs[i].key], claimant, now) {
        claimed := claimed + [refs[i]];
      }
    }
    assert refs[..|refs|] == refs;
  }

  method BadInserts(inserts: seq<string>, found: Store) returns (present: seq<string>)
    ensures present == Present(inserts, found)
  {
    present := [];
    for i := 0 to |inserts|
      invariant present == Present(inserts[..i], found)
    {
      assert inserts[..i + 1][..i] == inserts[..i];
      if inserts[i] != "" && inserts[i] in found {
        present := present + [inserts[i]];
      }
    }
    assert inserts[..|inserts|] == inserts;
  }

  /** DependencyError, for tasks or for docs. */
  method DependencyError(o: Ops, found: Store, claimant: string, now: int) returns (e: Problems)
    ensures e == ProblemsOf(o, found, claimant, now)
  {
    var present := BadInserts(o.inserts, found);
    var missingChanges, claimedChanges := BadTargets(o.changes, found, claimant, now);
    var missingDeletes, claimedDeletes := BadTargets(o.deletes, found, claimant, now);
    var missingDepends, _ := BadTargets(o.depends, found, claimant, now);
    e := Problems(present, missingChanges, missingDeletes, missingDepends, claimedDeletes + claimedChanges);
  }

  function ProblemsOf(o: Ops, found: Store, claimant: string, now: int): Problems
  {
    Problems(Present(o.inserts, found), Unmatched(o.changes, found), Unmatched(o.deletes, found),
             Unmatched(o.depends, found),
             Claimed(o.deletes, found, claimant, now) + Claimed(o.changes, found, claimant, now))
  }

  lemma {:induction false} UnmatchedHas(refs: seq<Ref>, found: Store, r: Ref)
    ensures r in Unmatched(refs, found) <==> r in refs && !Matching(r, found)
    decreases |refs|
  {
    if refs != [] {
      UnmatchedHas(refs[..|refs| - 1], found, r);
      assert refs == refs[..|refs| - 1] + [refs[|refs| - 1]];
    }
  }

  lemma {:induction false} ClaimedHas(refs: seq<Ref>, found: Store, claimant: string, now: int, r: Ref)
    ensures r in Claimed(refs, found, claimant, now) <==> r in refs && Blocked(r, found, claimant, now)
    decreases |refs|
  {
    if refs != [] {
      ClaimedHas(refs[..|refs| - 1], found, claimant, now, r);
      assert refs == refs[..|refs| - 1] + [refs[|refs| - 1]];
    }
  }

  lemma {:induction false} PresentHas(inserts: seq<string>, found: Store, k: string)
    ensures k in Present(inserts, found) <==> k in inserts && k != "" && k in found
    decreases |inserts|
  {
    if inserts != [] {
      PresentHas(inserts[..|inserts| - 1], found, k);
      assert inserts == inserts[..|inserts| - 1] + [inserts[|inserts| - 1]];
    }
  }

  /** Everything the operations need of the store. */
  ghost predicate Satisfied(o: Ops, found: Store, claimant: string, now: int)
  {
    && (forall k | k in o.inserts && k != "" :: k !in found)
    && (forall r | r in o.depends :: Matching(r, found))
    && (forall r | r in o.changes || r in o.deletes :: Matching(r, found) && !Blocked(r, found, claimant, now))
  }

  lemma FirstIn<T>(s: seq<T>)
    requires s != []
    ensures s[0] in s
  {
  }

  lemma NoneIn<T>(s: seq<T>)
    requires forall x :: x !in s
    ensures s == []
  {
    if s != [] {
      FirstIn(s);
    }
  }

  /** There is no error exactly when inserts are absent, named versions match, and
      nothing changed or deleted is held by another; otherwise the error lists every
      operation that fails, and only those. */
  lemma ErrorExactlyWhen(o: Ops, found: Store, claimant: string, now: int)
    ensures var e := ProblemsOf(o, found, claimant, now);
            && (e.None() <==> Satisfied(o, found, claimant, now))
            && (forall k :: k in e.inserts <==> k in o.inserts && k != "" && k in found)
            && (forall r :: r in e.changes <==> r in o.changes && !Matching(r, found))
            && (forall r :: r in e.deletes <==> r in o.deletes && !Matching(r, found))
            && (forall r :: r in e.depends <==> r in o.depends && !Matching(r, found))
            && (forall r :: r in e.claims <==> (r in o.changes || r in o.deletes) && Blocked(r, found, claimant, now))
  {
    var e := ProblemsOf(o, found, claimant, now);
    forall k ensures k in e.inserts <==> k in o.inserts && k != "" && k in found {
      PresentHas(o.inserts, found, k);
    }
    forall r
      ensures r in e.changes <==> r in o.changes && !Matching(r, found)
      ensures r in e.deletes <==> r in o.deletes && !Matching(r, found)
      ensures r in e.depends <==> r in o.depends && !Matching(r, found)
      ensures r in e.claims <==> (r in o.changes || r in o.deletes) && Blocked(r, found, claimant, now)
    {
      UnmatchedHas(o.changes, found, r);
      UnmatchedHas(o.deletes, found, r);
      UnmatchedHas(o.depends, found, r);
      ClaimedHas(o.changes, found, claimant, now, r);
      ClaimedHas(o.deletes, found, claimant, now, r);
    }
    if Satisfied(o, found, claimant, now) {
      NoneIn(e.inserts);
      NoneIn(e.changes);
      NoneIn(e.deletes);
      NoneIn(e.depends);
      NoneIn(e.claims);
    }
  }

  // ---------------------------------------------------------------- in any order

  /** One operation's effect: what its key holds afterwards. */
  datatype Effect = Effect(key: string, after: Option<Item>)

  function Apply(store: Store, e: Effect): Store
  {
    match e.after
    case Some(item) => store[e.key := item]
    case None => store - {e.key}
  }

  function ApplyAll(store: Store, effects: seq<Effect>): Store
  {
    if effects == [] then store else Apply(ApplyAll(store, effects[..|effects| - 1]), effects[|effects| - 1])
  }

  function Lookup(store: Store, k: string): Option<Item> { if k in store then Some(store[k]) else None }

  predicate OncePerKey(effects: seq<Effect>)
  {
    forall i, j | 0 <= i < j < |effects| :: effects[i].key != effects[j].key
  }

  /** A key holds what its one operation left it, or what it held. */
  lemma {:induction false} AppliedAt(store: Store, effects: seq<Effect>, k: string)
    requires OncePerKey(effects)
    ensures forall i | 0 <= i < |effects| && effects[i].key == k ::
            Lookup(ApplyAll(store, effects), k) == effects[i].after
    ensures (forall i | 0 <= i < |effects| :: effects[i].key != k) ==>
            Lookup(ApplyAll(store, effects), k) == Lookup(store, k)
    decreases |effects|
  {
    if effects != [] {
      AppliedAt(store, effects[..|effects| - 1], k);
    }
  }

  /** A batch that names each key once gives the same store in any order. */
  lemma AnyOrder(store: Store, a: seq<Effect>, b: seq<Effect>)
    requires OncePerKey(a) && OncePerKey(b) && multiset(a) == multiset(b)
    ensures ApplyAll(store, a) == ApplyAll(store, b)
  {
    var x, y := ApplyAll(store, a), ApplyAll(store, b);
    forall k ensures Lookup(x, k) == Lookup(y, k) {
      AppliedAt(store, a, k);
      AppliedAt(store, b, k);
      if i :| 0 <= i < |a| && a[i].key == k {
        assert a[i] in multiset(b);
        var j :| 0 <= j < |b| && b[j] == a[i];
      } else if j :| 0 <= j < |b| && b[j].key == k {
        assert b[j] in multiset(a);
      }
    }
    SameLookups(x, y);
  }

  lemma SameLookups(x: Store, y: Store)
    requires forall k :: Lookup(x, k) == Lookup(y, k)
    ensures x == y
  {
    forall k ensures k in x <==> k in y {
      assert Lookup(x, k) == Lookup(y, k);
    }
    forall k | k in x ensures x[k] == y[k] {
      assert Lookup(x, k) == Lookup(y, k);
    }
  }

  lemma {:induction false} CountOnce(effects: seq<Effect>, e: Effect)
    requires OncePerKey(effects)
    ensures multiset(effects)[e] <= 1
  {
    if effects != [] {
      var front, last := effects[..|effects| - 1], effects[|effects| - 1];
      CountOnce(front, e);
      assert effects == front + [last];
      if e == last {
        assert last !in front;
      }
    }
  }

  /** Once per key, in whatever order. */
  lemma StaysOnce(a: seq<Effect>, b: seq<Effect>)
    requires OncePerKey(a) && multiset(a) == multiset(b)
    ensures OncePerKey(b)
  {
    forall i, j | 0 <= i < j < |b| ensures b[i].key != b[j].key {
      assert b[i] in multiset(a) && b[j] in multiset(a);
      if b[i].key == b[j].key {
        assert b[i] == b[j];
        Seqs.Twice(b, i, j);
        CountOnce(a, b[i]);
      }
    }
  }

  /** What an operation writes: an insert, a change or an arrival leaves an item, one
      version on for the last two. */
  datatype Content = Content(claimant: string, at: int)

  function Inserted(ids: seq<string>, made: seq<Content>): (r: seq<Effect>)
    requires |ids| == |made|
    ensures |r| == |ids| && forall i | 0 <= i < |r| :: r[i].key == ids[i]
  {
    seq(|ids|, i requires 0 <= i < |ids| => Effect(ids[i], Some(Item(0, made[i].claimant, made[i].at))))
  }

  function Rewritten(refs: seq<Ref>, now: seq<Content>): (r: seq<Effect>)
    requires |refs| == |now|
    ensures |r| == |refs| && forall i | 0 <= i < |r| :: r[i].key == refs[i].key
  {
    seq(|refs|, i requires 0 <= i < |refs| =>
        Effect(refs[i].key, Some(Item(refs[i].version + 1, now[i].claimant, now[i].at))))
  }

  function Removed(refs: seq<Ref>): (r: seq<Effect>)
    ensures |r| == |refs| && forall i | 0 <= i < |r| :: r[i].key == refs[i].key
  {
    seq(|refs|, i requires 0 <= i < |refs| => Effect(refs[i].key, None))
  }

  /** The ids of the inserts: those they came with, and for the others new ones that
      nothing else has. */
  predicate Identified(o: Ops, ids: seq<string>)
  {
    && |ids| == |o.inserts|
    && (forall i | 0 <= i < |ids| && o.inserts[i] != "" :: ids[i] == o.inserts[i])
    && (forall i | 0 <= i < |ids| && o.inserts[i] == "" :: !HasKey(Named(o), ids[i]) && OnlyAt(ids, i))
  }

  predicate OnlyAt(ids: seq<string>, i: nat)
    requires i < |ids|
  {
    forall j | 0 <= j < |ids| && j != i :: ids[j] != ids[i]
  }

  /** Everything that a batch does to the store. */
  function EffectsOf(o: Ops, ids: seq<string>, made: seq<Content>, changed: seq<Content>,
                     arrived: seq<Content>): seq<Effect>
    requires |ids| == |made| && |changed| == |o.changes| && |arrived| == |o.arrives|
  {
    Rewritten(o.changes, changed) + Removed(o.deletes) + Rewritten(o.arrives, arrived) + Inserted(ids, made)
  }

  /** Two parts of a list that names each key once share none. */
  lemma PartsOnce(x: seq<Ref>, y: seq<Ref>)
    requires OnceEach(x + y)
    ensures OnceEach(x) && OnceEach(y) && forall i, j | 0 <= i < |x| && 0 <= j < |y| :: x[i].key != y[j].key
  {
    var all := x + y;
    PrefixOnce(x, y);
    forall i, j | 0 <= i < j < |y| ensures y[i].key != y[j].key {
      assert all[|x| + i] == y[i] && all[|x| + j] == y[j];
    }
    forall i, j | 0 <= i < |x| && 0 <= j < |y| ensures x[i].key != y[j].key {
      assert all[i] == x[i] && all[|x| + j] == y[j];
    }
  }

  lemma OnceTogether(a: seq<Effect>, b: seq<Effect>)
    requires OncePerKey(a) && OncePerKey(b) && forall i, j | 0 <= i < |a| && 0 <= j < |b| :: a[i].key != b[j].key
    ensures OncePerKey(a + b)
  {
  }

  /** The effects on keys that changes, deletes and arrivals name. */
  lemma TargetsOnce(o: Ops, changed: seq<Content>, arrived: seq<Content>, e: seq<Effect>)
    requires |changed| == |o.changes| && |arrived| == |o.arrives| && OnceEach(o.changes + o.deletes + o.arrives)
    requires e == Rewritten(o.changes, changed) + Removed(o.deletes) + Rewritten(o.arrives, arrived)
    ensures OncePerKey(e) && forall i | 0 <= i < |e| :: e[i].key == (o.changes + o.deletes + o.arrives)[i].key
  {
    var all := o.changes + o.deletes + o.arrives;
    forall i | 0 <= i < |e| ensures e[i].key == all[i].key {
    }
  }

  lemma {:induction false} ExplicitNamed(inserts: seq<string>, i: nat)
    requires i < |inserts| && inserts[i] != ""
    ensures HasKey(InsertRefs(inserts), inserts[i])
  {
    var refs := InsertRefs(inserts);
    if i == 0 {
      assert refs[0].key == inserts[0];
    } else {
      ExplicitNamed(inserts[1..], i - 1);
      var rest := InsertRefs(inserts[1..]);
      var k :| 0 <= k < |rest| && rest[k].key == inserts[i];
      assert refs[if inserts[0] == "" then k else k + 1].key == inserts[i];
    }
  }

  lemma {:induction false} ExplicitOnce(inserts: seq<string>, i: nat, j: nat)
    requires i < j < |inserts| && inserts[i] != "" && OnceEach(InsertRefs(inserts))
    ensures inserts[i] != inserts[j]
  {
    var rest := InsertRefs(inserts[1..]);
    if i == 0 {
      if inserts[j] != "" {
        ExplicitNamed(inserts[1..], j - 1);
        var k :| 0 <= k < |rest| && rest[k].key == inserts[j];
        var refs := InsertRefs(inserts);
        assert refs[0].key == inserts[0] && refs[k + 1].key == inserts[j];
        assert refs[0].key != refs[k + 1].key;
      }
    } else {
      PartsOnce(if inserts[0] == "" then [] else [Ref(inserts[0], -1)], rest);
      ExplicitOnce(inserts[1..], i - 1, j - 1);
    }
  }

  /** The ids that a batch's inserts get are new to each other and to the rest of it. */
  lemma IdentifiedOnce(o: Ops, ids: seq<string>)
    requires OnceEach(Named(o)) && Identified(o, ids)
    ensures forall i, j | 0 <= i < j < |ids| :: ids[i] != ids[j]
    ensures forall i | 0 <= i < |ids| :: !HasKey(o.changes + o.deletes + o.arrives, ids[i])
  {
    var targets := o.changes + o.deletes + o.arrives;
    var refs := InsertRefs(o.inserts);
    PartsOnce(targets + o.depends, refs);
    forall i, j | 0 <= i < j < |ids| ensures ids[i] != ids[j] {
      if o.inserts[i] != "" && o.inserts[j] != "" {
        ExplicitOnce(o.inserts, i, j);
      } else {
        assert OnlyAt(ids, if o.inserts[i] == "" then i else j);
      }
    }
    forall i, t | 0 <= i < |ids| && 0 <= t < |targets| ensures targets[t].key != ids[i] {
      NotTarget(o, ids, i, t);
    }
  }

  lemma NotTarget(o: Ops, ids: seq<string>, i: nat, t: nat)
    requires OnceEach(Named(o)) && Identified(o, ids) && i < |ids| && t < |o.changes + o.deletes + o.arrives|
    ensures (o.changes + o.deletes + o.arrives)[t].key != ids[i]
  {
    var targets := o.changes + o.deletes + o.arrives;
    var refs := InsertRefs(o.inserts);
    assert (targets + o.depends)[t] == targets[t] && Named(o)[t] == targets[t];
    if o.inserts[i] != "" {
      PartsOnce(targets + o.depends, refs);
      ExplicitNamed(o.inserts, i);
      var k :| 0 <= k < |refs| && refs[k].key == ids[i];
      assert (targets + o.depends)[t].key != refs[k].key;
    }
  }

  lemma EffectsOnce(o: Ops, ids: seq<string>, made: seq<Content>, changed: seq<Content>, arrived: seq<Content>)
    requires |ids| == |made| && |changed| == |o.changes| && |arrived| == |o.arrives|
    requires OnceEach(Named(o)) && Identified(o, ids)
    ensures OncePerKey(EffectsOf(o, ids, made, changed, arrived))
  {
    var targets := o.changes + o.deletes + o.arrives;
    var a, b := Rewritten(o.changes, changed) + Removed(o.deletes) + Rewritten(o.arrives, arrived), Inserted(ids, made);
    AnyPrefix(o.changes, o.deletes, o.arrives, o.depends, InsertRefs(o.inserts));
    TargetsOnce(o, changed, arrived, a);
    IdentifiedOnce(o, ids);
    forall i, j | 0 <= i < |a| && 0 <= j < |b| ensures a[i].key != b[j].key {
      assert targets[i].key == a[i].key && !HasKey(targets, ids[j]);
    }
    OnceTogether(a, b);
  }

  /** So an accepted batch may be applied in any order of its operations, inserts
      without an id included. */
  lemma AcceptedInAnyOrder(store: Store, o: Ops, ids: seq<string>, made: seq<Content>, changed: seq<Content>,
                           arrived: seq<Content>, order: seq<Effect>)
    requires |ids| == |made| && |changed| == |o.changes| && |arrived| == |o.arrives|
    requires OnceEach(Named(o)) && Identified(o, ids)
    requires multiset(order) == multiset(EffectsOf(o, ids, made, changed, arrived))
    ensures ApplyAll(store, order) == ApplyAll(store, EffectsOf(o, ids, made, changed, arrived))
  {
    var effects := EffectsOf(o, ids, made, changed, arrived);
    EffectsOnce(o, ids, made, changed, arrived);
    StaysOnce(effects, order);
    AnyOrder(store, order, effects);
  }

  // ---------------------------------------------------------------- doc keys

  const NUL := 0 as char

  /** DocKey. */
  function DocKey(space: string, id: string): string { space + ([NUL] + id) }

  /** A key shared with a longer namespace: that one starts with the other and a NUL. */
  lemma SharedPrefix(s1: string, i1: string, s2: string, i2: string)
    requires DocKey(s1, i1) == DocKey(s2, i2) && |s1| < |s2|
    ensures s1 + [NUL] <= s2
  {
    var key := DocKey(s1, i1);
    assert s1 + [NUL] == key[..|s1| + 1] && key[..|s1| + 1] == s2[..|s1| + 1];
  }

  lemma LengthsDiffer(s1: string, i1: string, s2: string, i2: string)
    requires s1 != s2
    ensures |s1| == |s2| ==> DocKey(s1, i1) != DocKey(s2, i2)
  {
    if |s1| == |s2| {
      var k :| 0 <= k < |s1| && s1[k] != s2[k];
      assert DocKey(s1, i1)[k] != DocKey(s2, i2)[k];
    }
  }

  /** No key of one namespace is a key of another, exactly when neither is the other
      followed by a NUL and anything. */
  lemma DocKeysDiffer(s1: string, s2: string)
    requires s1 != s2
    ensures (forall i1, i2 :: DocKey(s1, i1) != DocKey(s2, i2)) <==> !(s1 + [NUL] <= s2) && !(s2 + [NUL] <= s1)
  {
    forall i1, i2 | DocKey(s1, i1) == DocKey(s2, i2) ensures s1 + [NUL] <= s2 || s2 + [NUL] <= s1 {
      LengthsDiffer(s1, i1, s2, i2);
      if |s1| < |s2| {
        SharedPrefix(s1, i1, s2, i2);
      } else {
        SharedPrefix(s2, i2, s1, i1);
      }
    }
    if s1 + [NUL] <= s2 {
      Clashes(s1, s2);
    }
    if s2 + [NUL] <= s1 {
      Clashes(s2, s1);
    }
  }

  lemma Clashes(s1: string, s2: string)
    requires s1 + [NUL] <= s2
    ensures exists i1, i2 :: DocKey(s1, i1) == DocKey(s2, i2)
  {
    var after := s2[|s1| + 1..];
    assert s2 == s1 + ([NUL] + after);
    DocKeysClash(s1, after, []);
  }

  /** A namespace that holds a NUL shares every key with a doc of a shorter one. */
  lemma DocKeysClash(before: string, after: string, id: string)
    ensures DocKey(before + ([NUL] + after), id) == DocKey(before, after + ([NUL] + id))
  {
  }
}
