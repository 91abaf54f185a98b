/** The file sink: shards committed by rename, their sums recorded first, and a
    manifest written last. Any call may stop after any of its effects. */
module FileSink {
  import opened Texts
  import opened Outcomes

  /** What is recorded of a file: its digest and its length. */
  datatype Sums = Sums(digest: Text, bytes: nat)

  /** A staged attempt, as Stage's writer described it. */
  datatype Staged = Staged(name: string, partition: int, partitions: nat, sums: Sums)

  datatype Manifest = Manifest(run: string, files: seq<Sums>, empty: seq<int>)

  /** How a call ended: done, refused for good, or stopped before its end. */
  datatype Ended = Done | Refused | Halted

  function SumsOf(digest: Text -> Text, content: Text): Sums { Sums(digest(content), |content|) }

  /** How a shard came to be: committed, with the sums that the attempt came with, or
      made by a Finish that was told that its partition is empty. */
  datatype Event = Placed(p: int, content: Text, sums: Sums) | Emptied(p: int)

  function ContentOf(e: Event): Text { if e.Placed? then e.content else [] }

  /** What came first for partition p. */
  function FirstOf(history: seq<Event>, p: int): Option<Event>
  {
    if history == [] then None
    else
      match FirstOf(history[..|history| - 1], p)
      case Some(e) => Some(e)
      case None => if history[|history| - 1].p == p then Some(history[|history| - 1]) else None
  }

  lemma FirstSnoc(history: seq<Event>, e: Event, p: int)
    ensures FirstOf(history + [e], p) ==
            if FirstOf(history, p).Some? then FirstOf(history, p) else if e.p == p then Some(e) else None
  {
    assert (history + [e])[..|history|] == history;
  }

  /** p's shard is what first became of it, and where that was a commit the recorded
      sums are its own, of the right length. */
  ghost predicate ShardOk(history: seq<Event>, shards: map<int, Text>, sums: map<int, Sums>, p: int)
  {
    match FirstOf(history, p)
    case None => p !in shards
    case Some(e) =>
      && p in shards && shards[p] == ContentOf(e)
      && (e.Placed? ==> p in sums && sums[p] == e.sums && e.sums.bytes == |e.content|)
  }

  ghost predicate AllOk(history: seq<Event>, shards: map<int, Text>, sums: map<int, Sums>)
  {
    forall p :: ShardOk(history, shards, sums, p)
  }

  /** Sums may be recorded for a partition that has no shard. */
  lemma RecordKeeps(history: seq<Event>, shards: map<int, Text>, sums: map<int, Sums>, p: int, x: Sums)
    requires AllOk(history, shards, sums) && p !in shards
    ensures AllOk(history, shards, sums[p := x])
  {
    var more := sums[p := x];
    forall q ensures ShardOk(history, shards, more, q) {
      assert ShardOk(history, shards, sums, q);
    }
  }

  /** And then its shard may come to be. */
  lemma EventKeeps(history: seq<Event>, shards: map<int, Text>, sums: map<int, Sums>, e: Event)
    requires AllOk(history, shards, sums) && e.p !in shards
    requires e.Placed? ==> e.p in sums && sums[e.p] == e.sums && e.sums.bytes == |e.content|
    ensures AllOk(history + [e], shards[e.p := ContentOf(e)], sums)
  {
    var now, made := history + [e], shards[e.p := ContentOf(e)];
    forall q ensures ShardOk(now, made, sums, q) {
      assert ShardOk(history, shards, sums, q);
      FirstSnoc(history, e, q);
    }
  }

  class FileSink {
    const digest: Text -> Text
    var owner: Option<string>
    var shards: map<int, Text>
    var sums: map<int, Sums>
    var staged: map<string, Text>
    var manifest: Option<Manifest>

    ghost var history: seq<Event>

    ghost predicate Valid()
      reads this
    {
      AllOk(history, shards, sums)
    }

    constructor (digest: Text -> Text)
      ensures Valid() && shards == map[] && staged == map[] && history == [] && owner == None && this.digest == digest
    {
      this.digest := digest;
      owner, manifest := None, None;
      shards, sums, staged := map[], map[], map[];
      history := [];
    }

    /** Every attempt that was committed came with its own sums, as Stage describes it. */
    ghost predicate Truthful()
      reads this
    {
      forall e | e in history && e.Placed? :: e.sums == SumsOf(digest, e.content)
    }

    /** A shard that exists keeps its content. */
    twostate predicate ShardsKept()
      reads this
    {
      forall p | p in old(shards) :: p in shards && shards[p] == old(shards[p])
    }

    /** claim. effects is how many effects the call has left before it stops. */
    method Claim(run: string, effects: nat) returns (r: Ended, left: nat)
      modifies `owner
      ensures effects - 1 <= left <= effects
      ensures owner == if old(owner).None? && effects > 0 then Some(run) else old(owner)
      ensures r.Done? <==> owner == Some(run)
      ensures r.Halted? <==> old(owner).None? && effects == 0
    {
      left := effects;
      if owner.None? {
        if left == 0 {
          return Halted, 0;
        }
        owner, left := Some(run), left - 1;
      }
      r := if owner.value == run then Done else Refused;
    }

    /** Stage, and the writer it opens: the attempt is written under a name of its
        own, and described by its sums. */
    method Stage(run: string, partition: int, partitions: nat, name: string, content: Text, effects: nat)
      returns (r: Ended, ref: Staged)
      requires Valid()
      modifies `owner, `staged
      ensures Valid()
      ensures r.Done? ==> owner == Some(run) && 0 <= partition < partitions && name !in old(staged)
      ensures r.Done? ==> staged == old(staged)[name := content]
      ensures ref == Staged(name, partition, partitions, SumsOf(digest, content))
      ensures effects >= 2 && 0 <= partition < partitions ==>
              name !in old(staged) && (old(owner).None? || old(owner) == Some(run)) ==> r.Done?
    {
      ref := Staged(name, partition, partitions, SumsOf(digest, content));
      if partitions < 1 || partition < 0 || partition >= partitions {
        return Refused, ref;
      }
      var claimed, left := Claim(run, effects);
      if !claimed.Done? {
        return claimed, ref;
      }
      if left == 0 || name in staged {
        return Halted, ref;
      }
      staged := staged[name := content];
      r := Done;
    }

    /** The attempt is not one of this partition's. */
    predicate Misplaced(partition: int, ref: Staged) { ref.partition != partition || ref.partitions <= partition }

    /** Commit: the sums are recorded, then the staged file becomes the shard, unless
        there is one. */
    method Commit(run: string, partition: int, ref: Staged, effects: nat) returns (r: Ended)
      requires Valid()
      modifies this
      ensures Valid() && ShardsKept() && manifest == old(manifest)
      ensures owner == if old(owner).None? && effects > 0 && !Misplaced(partition, ref) then Some(run) else old(owner)
      ensures r.Done? ==> partition in shards && owner == Some(run)
      ensures if r.Done? && partition !in old(shards) then
                && ref.name in old(staged) && shards == old(shards)[partition := old(staged)[ref.name]]
                && history == old(history) + [Placed(partition, old(staged)[ref.name], ref.sums)]
              else shards == old(shards) && history == old(history)
      ensures !r.Done? ==> staged == old(staged)
      ensures old(Truthful()) && (ref.name in old(staged) ==> ref.sums == SumsOf(digest, old(staged)[ref.name])) ==>
              Truthful()
      ensures !r.Halted? ==>
                (r.Refused? <==>
                 || Misplaced(partition, ref) || owner != Some(run)
                 || (partition !in old(shards) &&
                     (ref.name !in old(staged) || |old(staged)[ref.name]| != ref.sums.bytes)))
      ensures effects >= 3 ==> !r.Halted?
    {
      if Misplaced(partition, ref) {
        return Refused;
      }
      var claimed, left := Claim(run, effects);
      if !claimed.Done? {
        return claimed;
      }
      if partition in shards {
        return Done;
      }
      if ref.name !in staged || |staged[ref.name]| != ref.sums.bytes {
        return Refused;
      }
      if left == 0 {
        return Halted;
      }
      RecordKeeps(history, shards, sums, partition, ref.sums);
      sums, left := sums[partition := ref.sums], left - 1;
      if left == 0 {
        return Halted;
      }
      var content := staged[ref.name];
      EventKeeps(history, shards, sums, Placed(partition, content, ref.sums));
      shards, staged := shards[partition := content], staged - {ref.name};
      history := history + [Placed(partition, content, ref.sums)];
      r := Done;
    }

    /** Finish's first loop: an empty shard for each partition said to be empty. */
    method FillEmpty(empty: seq<int>, effects: nat) returns (ok: bool, left: nat)
      requires Valid()
      modifies `shards, `history
      ensures Valid() && ShardsKept() && Fills(old(history), history, old(shards), empty)
      ensures forall p | p in shards && p !in old(shards) :: p in empty && shards[p] == []
      ensures ok ==> forall p | p in empty :: p in shards
      ensures effects >= |empty| ==> ok && left >= effects - |empty|
    {
      left := effects;
      for i := 0 to |empty|
        invariant Valid() && ShardsKept() && Fills(old(history), history, old(shards), empty)
        invariant forall p | p in shards && p !in old(shards) :: p in empty && shards[p] == []
        invariant forall k | 0 <= k < i :: empty[k] in shards
        invariant left >= effects - i
      {
        if empty[i] !in shards {
          if left == 0 {
            return false, 0;
          }
          EventKeeps(history, shards, sums, Emptied(empty[i]));
          shards, left := shards[empty[i] := []], left - 1;
          history := history + [Emptied(empty[i])];
        }
      }
      ok := true;
    }

    /** Finish's second loop. A partition without its sums has no committed output. */
    method Compile(partitions: nat, empty: seq<int>) returns (files: Outcome<seq<Sums>>)
      ensures files.Ok? ==> |files.value| == partitions && forall p | 0 <= p < partitions ::
                if p in empty then files.value[p] == SumsOf(digest, [])
                else p in shards && p in sums && files.value[p] == sums[p]
      ensures files.Failed? ==> Lacks(partitions, empty)
    {
      var fs := [];
      for p := 0 to partitions
        invariant |fs| == p && forall q | 0 <= q < p ::
                    if q in empty then fs[q] == SumsOf(digest, []) else q in shards && q in sums && fs[q] == sums[q]
      {
        if p in empty {
          fs := fs + [SumsOf(digest, [])];
        } else if p in shards && p in sums {
          fs := fs + [sums[p]];
        } else {
          return Failed;
        }
      }
      files := Ok(fs);
    }

    /** Some partition that is not said to be empty has no committed output. */
    ghost predicate Lacks(partitions: nat, empty: seq<int>)
      reads this
    {
      exists p | 0 <= p < partitions :: p !in empty && (p !in shards || p !in sums)
    }

    method Finish(run: string, partitions: nat, empty: seq<int>, effects: nat) returns (r: Ended)
      requires Valid()
      modifies this
      ensures Valid() && ShardsKept() && Fills(old(history), history, old(shards), empty)
      ensures owner == if old(owner).None? && effects > 0 then Some(run) else old(owner)
      ensures forall p | p in shards && p !in old(shards) :: p in empty && shards[p] == []
      ensures r.Done? ==> && manifest.Some? && Lists(manifest.value.files, partitions, empty)
                          && manifest.value.run == run && manifest.value.empty == empty
      ensures !r.Done? ==> manifest == old(manifest)
      ensures r.Refused? ==> owner != Some(run) || Lacks(partitions, empty)
      ensures r.Done? ==> owner == Some(run) && !Lacks(partitions, empty)
      ensures effects >= |empty| + 2 ==> !r.Halted?
    {
      var claimed, left := Claim(run, effects);
      if !claimed.Done? {
        return claimed;
      }
      var ok;
      ok, left := FillEmpty(empty, left);
      if !ok {
        return Halted;
      }
      var files := Compile(partitions, empty);
      if files.Failed? {
        return Refused;
      }
      if left == 0 {
        return Halted;
      }
      manifest := Some(Manifest(run, files.value, empty));
      r := Done;
    }

    /** files are what Finish lists: the empty sums for a partition it was told is
        empty, the recorded ones for the others. */
    ghost predicate Lists(files: seq<Sums>, partitions: nat, empty: seq<int>)
      reads this
    {
      |files| == partitions && forall p | 0 <= p < partitions ::
        p in shards && if p in empty then files[p] == SumsOf(digest, []) else p in sums && files[p] == sums[p]
    }

    /** The manifest describes every shard. */
    ghost predicate Matches(files: seq<Sums>)
      reads this
    {
      forall p | 0 <= p < |files| :: p in shards && files[p] == SumsOf(digest, shards[p])
    }

    /** A partition's entry is right: if something was committed for it before any
        Finish called it empty, this Finish did not call it empty, and the attempt
        came with its own sums, or there was no data in it; and if a Finish called it
        empty first, so did this one, or the sums that a commit had recorded before it
        stopped are those of no data. */
    ghost predicate RightlyTold(p: int, empty: seq<int>)
      reads this
    {
      match FirstOf(history, p)
      case Some(Placed(_, content, sums)) => if p in empty then content == [] else sums == SumsOf(digest, content)
      case Some(Emptied(_)) => p !in empty ==> p in sums && sums[p] == SumsOf(digest, [])
      case None => false
    }

    /** A finished manifest matches every file exactly when that is so of every
        partition. */
    lemma ManifestExactlyWhen(files: seq<Sums>, partitions: nat, empty: seq<int>)
      requires Valid() && Lists(files, partitions, empty)
      ensures Matches(files) <==> forall p | 0 <= p < partitions :: RightlyTold(p, empty)
    {
      forall p | 0 <= p < partitions ensures files[p] == SumsOf(digest, shards[p]) <==> RightlyTold(p, empty) {
        assert ShardOk(history, shards, sums, p);
        assert SumsOf(digest, []).bytes == 0 && SumsOf(digest, shards[p]).bytes == |shards[p]|;
      }
    }
  }

  /** Every event that is new is an empty shard for a partition that was said to be
      empty and had none. */
  ghost predicate Fills(was: seq<Event>, now: seq<Event>, shards: map<int, Text>, empty: seq<int>)
  {
    was <= now && forall i | |was| <= i < |now| :: now[i].Emptied? && now[i].p in empty && now[i].p !in shards
  }

  /** A sink whose one partition has been committed. */
  method CommittedOne(digest: Text -> Text, run: string, content: Text) returns (sink: FileSink)
    ensures fresh(sink) && sink.Valid() && sink.digest == digest && sink.shards == map[0 := content] &&
            sink.owner == Some(run)
  {
    sink := new FileSink(digest);
    var staged, ref := sink.Stage(run, 0, 1, "attempt", content, 2);
    assert staged.Done?;
    var committed := sink.Commit(run, 0, ref, 3);
  }

  /** Data is committed for a run's one partition, and Finish is told, as a stale map
      check would tell it, that the partition is empty: the manifest is written, and
      is wrong. */
  method WrongManifest(digest: Text -> Text, run: string, content: Text) returns (sink: FileSink)
    requires content != []
    ensures fresh(sink) && sink.Valid() && sink.digest == digest && sink.shards == map[0 := content]
    ensures sink.manifest == Some(Manifest(run, [SumsOf(digest, [])], [0])) && !sink.Matches([SumsOf(digest, [])])
  {
    sink := CommittedOne(digest, run, content);
    var finished := sink.Finish(run, 1, [0], 3);
    assert 0 in [0];
    assert finished.Done?;
    assert forall p | p in sink.shards :: p == 0;
    assert sink.shards == map[0 := content];
    assert sink.manifest.value.files == [SumsOf(digest, [])];
    assert SumsOf(digest, []).bytes != SumsOf(digest, content).bytes;
  }
}
