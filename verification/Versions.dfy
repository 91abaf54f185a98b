/** The commit that ends a worker's body: its operations moved to the versions that
    renewal left, and the doc sets it held given back. */
module Versions {

  datatype SetKey = SetKey(space: string, key: string)
  datatype DocKey = DocKey(space: string, id: string)

  datatype TaskOp = TaskOp(id: string, version: int)

  /** hold is how long a write asks to hold the doc's set; not at all unless above 0. */
  datatype DocOp = DocOp(doc: DocKey, key: string, version: int, hold: int)

  /** after is how far off a set's arrival is put; now if 0. */
  datatype SetOp = SetOp(name: SetKey, version: int, after: int)

  /** A claimed doc set. Every doc in it is at the set's version. */
  datatype DocSet = DocSet(name: SetKey, version: int, docs: seq<string>)

  class Modification {
    var changes: seq<TaskOp>
    var depends: seq<TaskOp>
    var deletes: seq<TaskOp>
    var arrives: seq<TaskOp>
    var docInserts: seq<DocOp>
    var docChanges: seq<DocOp>
    var docDeletes: seq<DocOp>
    var docDepends: seq<DocOp>
    var docArrives: seq<SetOp>
  }

  // ---------------------------------------------------------------- versions

  function SetVersions(sets: seq<DocSet>): map<SetKey, int>
  {
    if sets == [] then map[]
    else
      var last := sets[|sets| - 1];
      SetVersions(sets[..|sets| - 1])[last.name := last.version]
  }

  function DocVersions(sets: seq<DocSet>): map<DocKey, int>
  {
    if sets == [] then map[]
    else
      var last := sets[|sets| - 1];
      DocVersions(sets[..|sets| - 1]) + map id | id in last.docs :: DocKey(last.name.space, id) := last.version
  }

  function FixedTask(op: TaskOp, id: string, version: int): TaskOp
  {
    if op.id == id then op.(version := version) else op
  }

  function FixedDoc(op: DocOp, versions: map<DocKey, int>): DocOp
  {
    if op.doc in versions then op.(version := versions[op.doc]) else op
  }

  function FixedSet(op: SetOp, versions: map<SetKey, int>): SetOp
  {
    if op.name in versions then op.(version := versions[op.name]) else op
  }

  predicate TasksFixed(before: seq<TaskOp>, after: seq<TaskOp>, id: string, version: int)
  {
    |after| == |before| && forall i | 0 <= i < |before| :: after[i] == FixedTask(before[i], id, version)
  }

  predicate DocsFixed(before: seq<DocOp>, after: seq<DocOp>, versions: map<DocKey, int>)
  {
    |after| == |before| && forall i | 0 <= i < |before| :: after[i] == FixedDoc(before[i], versions)
  }

  predicate SetsFixed(before: seq<SetOp>, after: seq<SetOp>, versions: map<SetKey, int>)
  {
    |after| == |before| && forall i | 0 <= i < |before| :: after[i] == FixedSet(before[i], versions)
  }

  method FixTasks(ops: seq<TaskOp>, id: string, version: int) returns (r: seq<TaskOp>)
    ensures TasksFixed(ops, r, id, version)
  {
    r := [];
    for i := 0 to |ops|
      invariant TasksFixed(ops[..i], r, id, version)
    {
      r := r + [if ops[i].id == id then TaskOp(id, version) else ops[i]];
    }
  }

  method FixDocs(ops: seq<DocOp>, versions: map<DocKey, int>) returns (r: seq<DocOp>)
    ensures DocsFixed(ops, r, versions)
  {
    r := [];
    for i := 0 to |ops|
      invariant DocsFixed(ops[..i], r, versions)
    {
      var op := ops[i];
      r := r + [if op.doc in versions then DocOp(op.doc, op.key, versions[op.doc], op.hold) else op];
    }
  }

  method Collect(sets: seq<DocSet>) returns (setVers: map<SetKey, int>, docVers: map<DocKey, int>)
    ensures setVers == SetVersions(sets) && docVers == DocVersions(sets)
  {
    setVers, docVers := map[], map[];
    for i := 0 to |sets|
      invariant setVers == SetVersions(sets[..i]) && docVers == DocVersions(sets[..i])
    {
      assert sets[..i + 1][..i] == sets[..i];
      setVers := setVers[sets[i].name := sets[i].version];
      docVers := docVers + map id | id in sets[i].docs :: DocKey(sets[i].name.space, id) := sets[i].version;
    }
    assert sets[..|sets|] == sets;
  }

  /** fixVersions. */
  method FixVersions(m: Modification, id: string, version: int, sets: seq<DocSet>)
    modifies m
    ensures TasksFixed(old(m.changes), m.changes, id, version) && TasksFixed(old(m.depends), m.depends, id, version)
    ensures TasksFixed(old(m.deletes), m.deletes, id, version) && TasksFixed(old(m.arrives), m.arrives, id, version)
    ensures DocsFixed(old(m.docChanges), m.docChanges, DocVersions(sets))
    ensures DocsFixed(old(m.docDeletes), m.docDeletes, DocVersions(sets))
    ensures DocsFixed(old(m.docDepends), m.docDepends, DocVersions(sets))
    ensures SetsFixed(old(m.docArrives), m.docArrives, SetVersions(sets)) && m.docInserts == old(m.docInserts)
  {
    m.changes := FixTasks(m.changes, id, version);
    m.depends := FixTasks(m.depends, id, version);
    m.deletes := FixTasks(m.deletes, id, version);
    m.arrives := FixTasks(m.arrives, id, version);
    var setVers, docVers := Collect(sets);
    m.docChanges := FixDocs(m.docChanges, docVers);
    m.docDeletes := FixDocs(m.docDeletes, docVers);
    m.docDepends := FixDocs(m.docDepends, docVers);
    var fixed: seq<SetOp> := [];
    for i := 0 to |m.docArrives|
      invariant SetsFixed(m.docArrives[..i], fixed, setVers)
    {
      fixed := fixed + [FixedSet(m.docArrives[i], setVers)];
    }
    m.docArrives := fixed;
  }

  /** The store's versions, where the worker's claims hold: a doc is at its set's. */
  ghost predicate AtStore(sets: seq<DocSet>, docs: map<DocKey, int>)
  {
    forall i, id | 0 <= i < |sets| && id in sets[i].docs ::
      var d := DocKey(sets[i].name.space, id); d in docs && docs[d] == sets[i].version
  }

  lemma {:induction false} HeldVersions(sets: seq<DocSet>, docs: map<DocKey, int>, d: DocKey)
    requires AtStore(sets, docs) && d in DocVersions(sets)
    ensures d in docs && DocVersions(sets)[d] == docs[d]
    decreases |sets|
  {
    var front, last := sets[..|sets| - 1], sets[|sets| - 1];
    if d.space == last.name.space && d.id in last.docs {
      assert DocKey(last.name.space, d.id) == d;
    } else {
      HeldVersions(front, docs, d);
    }
  }

  /** What was handed over at the store's versions commits at the store's versions:
      every operation on a held doc names the version the store has. */
  lemma FixedAtStore(before: seq<DocOp>, after: seq<DocOp>, sets: seq<DocSet>, docs: map<DocKey, int>, i: nat)
    requires AtStore(sets, docs) && DocsFixed(before, after, DocVersions(sets)) && i < |after|
    ensures after[i].doc == before[i].doc && after[i].key == before[i].key && after[i].hold == before[i].hold
    ensures after[i].doc in DocVersions(sets) ==> after[i].doc in docs && after[i].version == docs[after[i].doc]
    ensures after[i].doc !in DocVersions(sets) ==> after[i] == before[i]
  {
    if before[i].doc in DocVersions(sets) {
      HeldVersions(sets, docs, before[i].doc);
    }
  }

  // ---------------------------------------------------------------- releases

  predicate Named(name: SetKey, ops: seq<SetOp>)
  {
    exists i | 0 <= i < |ops| :: ops[i].name == name
  }

  predicate HeldBy(name: SetKey, ops: seq<DocOp>)
  {
    exists i | 0 <= i < |ops| :: ops[i].hold > 0 && SetKey(ops[i].doc.space, ops[i].key) == name
  }

  /** A modification has said when a set is to arrive, or a write of its docs holds it. */
  predicate Decided(name: SetKey, arrives: seq<SetOp>, inserts: seq<DocOp>, changes: seq<DocOp>)
  {
    Named(name, arrives) || HeldBy(name, inserts) || HeldBy(name, changes)
  }

  method Holding(ops: seq<DocOp>) returns (names: set<SetKey>)
    ensures forall n :: n in names <==> HeldBy(n, ops)
  {
    names := {};
    for k := 0 to |ops|
      invariant forall n :: n in names <==> HeldBy(n, ops[..k])
    {
      assert ops[..k + 1] == ops[..k] + [ops[k]];
      if ops[k].hold > 0 {
        names := names + {SetKey(ops[k].doc.space, ops[k].key)};
      }
    }
    assert ops[..|ops|] == ops;
  }

  method Naming(ops: seq<SetOp>) returns (names: set<SetKey>)
    ensures forall n :: n in names <==> Named(n, ops)
  {
    names := {};
    for k := 0 to |ops|
      invariant forall n :: n in names <==> Named(n, ops[..k])
    {
      assert ops[..k + 1] == ops[..k] + [ops[k]];
      names := names + {ops[k].name};
    }
    assert ops[..|ops|] == ops;
  }

  /** op gives back one of the claimed sets, at its version. */
  predicate Returns(op: SetOp, sets: seq<DocSet>, decided: set<SetKey>)
  {
    op.name !in decided && exists i | 0 <= i < |sets| :: op == SetOp(sets[i].name, sets[i].version, 0)
  }

  method Free(sets: seq<DocSet>, decided: set<SetKey>) returns (free: seq<SetOp>)
    ensures forall i | 0 <= i < |sets| :: sets[i].name in decided || Named(sets[i].name, free)
    ensures forall j | 0 <= j < |free| :: Returns(free[j], sets, decided)
  {
    free := [];
    for k := 0 to |sets|
      invariant forall i | 0 <= i < k :: sets[i].name in decided || Named(sets[i].name, free)
      invariant forall j | 0 <= j < |free| :: Returns(free[j], sets, decided)
    {
      if sets[k].name !in decided {
        var op := SetOp(sets[k].name, sets[k].version, 0);
        NamedMore(free, [op]);
        assert [op][0].name == sets[k].name;
        free := free + [op];
      }
    }
  }

  lemma NamedMore(a: seq<SetOp>, b: seq<SetOp>)
    ensures forall n | Named(n, a) :: Named(n, a + b)
    ensures forall n | Named(n, b) :: Named(n, a + b)
    ensures forall i | 0 <= i < |b| :: Named(b[i].name, a + b)
  {
    forall n | Named(n, a) ensures Named(n, a + b) {
      var i :| 0 <= i < |a| && a[i].name == n;
      assert (a + b)[i].name == n;
    }
    forall n | Named(n, b) ensures Named(n, a + b) {
      var i :| 0 <= i < |b| && b[i].name == n;
      assert (a + b)[|a| + i].name == n;
    }
  }

  /** releasing: every claimed set whose arrival is not decided goes back with the
      commit, and no other set does. */
  method Releasing(m: Modification, sets: seq<DocSet>)
    modifies m`docArrives
    ensures old(m.docArrives) <= m.docArrives
    ensures forall k | 0 <= k < |sets| :: Decided(sets[k].name, m.docArrives, m.docInserts, m.docChanges)
    ensures forall j | |old(m.docArrives)| <= j < |m.docArrives| ::
              && (exists k | 0 <= k < |sets| :: m.docArrives[j] == SetOp(sets[k].name, sets[k].version, 0))
              && !Decided(m.docArrives[j].name, old(m.docArrives), m.docInserts, m.docChanges)
  {
    var named := Naming(m.docArrives);
    var inserted := Holding(m.docInserts);
    var changed := Holding(m.docChanges);
    var free := Free(sets, named + inserted + changed);
    NamedMore(m.docArrives, free);
    m.docArrives := m.docArrives + free;
    forall j | |old(m.docArrives)| <= j < |m.docArrives|
      ensures Returns(m.docArrives[j], sets, named + inserted + changed)
    {
      assert m.docArrives[j] == free[j - |old(m.docArrives)|];
    }
  }
}
