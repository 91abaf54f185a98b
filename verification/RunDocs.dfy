/** How the run's docs change, and what workers know across those changes. */
module RunDocs {
  import opened RunProtocol
  import opened RunInvariants

  // ---------------------------------------------------------------- each doc change

  lemma BumpKeeps(n: nat, parts: nat, d: Docs)
    requires DocsOk(n, parts, d)
    ensures DocsOk(n, parts, Bump(d)) && Later(d, Bump(d))
  {
  }

  lemma FailKeeps(n: nat, parts: nat, d: Docs)
    requires DocsOk(n, parts, d) && !d.phase.Terminal()
    ensures DocsOk(n, parts, InPhase(d, PhaseFailed)) && Later(d, InPhase(d, PhaseFailed))
  {
  }

  lemma DoneKeeps(n: nat, parts: nat, d: Docs)
    requires DocsOk(n, parts, d) && !d.phase.Terminal() && d.splits == {} && d.pointers == map[]
    ensures DocsOk(n, parts, InPhase(d, PhaseDone)) && Later(d, InPhase(d, PhaseDone))
  {
  }

  /** With no marker yet, the partitions of the pointers are those with data. */
  lemma PartsHaveData(d: Docs)
    requires PointersOk(d) && d.markers == {}
    ensures forall p :: p in PartsOf(d.pointers) <==> HasData(d.accepted, p)
  {
    forall p ensures p in PartsOf(d.pointers) <==> HasData(d.accepted, p) {
      if HasData(d.accepted, p) {
        var id :| Names(d.accepted, id, p);
        assert id in d.pointers;
      }
      if p in PartsOf(d.pointers) {
        var id :| id in d.pointers && d.pointers[id].partition == p;
        assert Names(d.accepted, id, p);
      }
    }
  }

  lemma FanKeeps(n: nat, parts: nat, d: Docs, fan: set<int>)
    requires DocsOk(n, parts, d) && d.phase.PhaseMap? && d.splits == {} && fan != {}
    requires forall p :: p in fan <==> HasData(d.accepted, p)
    ensures var d' := InPhase(d, PhaseReduce).(fanned := fan); DocsOk(n, parts, d') && Later(d, d')
  {
  }

  lemma AcceptKeeps(n: nat, parts: nat, d: Docs, f: Finish)
    requires DocsOk(n, parts, d) && f.split in d.splits && InRange(f.runs, parts)
    ensures DocsOk(n, parts, Accepted(d, f)) && Later(d, Accepted(d, f))
  {
    var d' := Accepted(d, f);
    forall id, p | Names(d'.accepted, id, p) && p !in d'.markers ensures id in d'.pointers {
      if id.split != f.split {
        assert Names(d.accepted, id, p);
      }
    }
    forall id | id in d'.pointers
      ensures Names(d'.accepted, id, d'.pointers[id].partition)
      ensures d'.pointers[id] == d'.accepted[id.split].runs[id.index]
    {
      if id in d.pointers {
        assert Names(d.accepted, id, d.pointers[id].partition);
      }
    }
  }

  lemma ConsumeKeeps(n: nat, parts: nat, d: Docs, p: int, ids: set<PointerID>)
    requires DocsOk(n, parts, d) && p in d.fanned && ids != {} && ReadOk(d, p, ids)
    ensures var d' := d.(pointers := d.pointers - ids, markers := d.markers + {p}); DocsOk(n, parts, d') && Later(d, d')
  {
  }

  /** Partition p has data but no pointers, so its marker is in. */
  lemma ReadIsComplete(n: nat, parts: nat, d: Docs, p: int)
    requires DocsOk(n, parts, d) && p in d.fanned
    ensures ReadOk(d, p, PointersOf(d.pointers, p))
  {
    var ids := PointersOf(d.pointers, p);
    assert HasData(d.accepted, p);
    var id0 :| Names(d.accepted, id0, p);
    if p in d.markers {
      assert ids == {};
    } else {
      assert id0 in d.pointers;
      assert id0 in ids;
      forall id ensures id in ids <==> Names(d.accepted, id, p) {
        if Names(d.accepted, id, p) {
          assert id in d.pointers;
        }
      }
    }
  }

  // ---------------------------------------------------------------- names across changes

  /** Once the splits are gone, a complete read stays complete. */
  lemma CompleteLater(d: Docs, d': Docs, p: int, order: seq<PointerID>, runs: seq<Run>)
    requires Later(d, d') && d.splits == {} && CompleteRead(d.accepted, p, order, runs)
    ensures CompleteRead(d'.accepted, p, order, runs)
  {
  }

  lemma GoodLater(n: nat, parts: nat, d: Docs, d': Docs, a: Attempt)
    requires DocsOk(n, parts, d) && Later(d, d') && GoodAttempt(d, a)
    ensures GoodAttempt(d', a)
  {
    CompleteLater(d, d', a.partition, a.pointers, a.runs);
  }

  lemma TaskLater(n: nat, parts: nat, d: Docs, d': Docs, task: Task)
    requires DocsOk(n, parts, d) && Later(d, d') && TaskOk(n, d, task)
    ensures TaskOk(n, d', task)
  {
    if task.ReduceDone? {
      GoodLater(n, parts, d, d', task.attempt);
    }
  }

  // ---------------------------------------------------------------- workers across changes

  ghost predicate SinkLater(sink: Sink, sink': Sink)
  {
    && sink.committed.Keys <= sink'.committed.Keys
    && sink.finishes <= sink'.finishes
  }

  lemma CheckLater(n: nat, parts: nat, d: Docs, d': Docs, sink: Sink, sink': Sink, task: Task, stage: Stage)
    requires DocsOk(n, parts, d) && Later(d, d') && SinkLater(sink, sink') && IsCheck(task)
    requires CheckOk(parts, d, sink, task, stage)
    ensures CheckOk(parts, d', sink', task, stage)
  {
    if (stage.NoneLeft? || stage.Listed? || stage.Finishing?) && d.splits == {} && d.pointers == map[] {
      assert d'.pointers == map[];
    }
  }

  lemma ReduceDoneLater(n: nat, parts: nat, d: Docs, d': Docs, sink: Sink, sink': Sink, a: Attempt, stage: Stage)
    requires DocsOk(n, parts, d) && Later(d, d') && SinkLater(sink, sink') && GoodAttempt(d, a)
    requires ReduceDoneOk(d, sink, a, stage)
    ensures ReduceDoneOk(d', sink', a, stage)
  {
  }

  lemma ReducerLater(n: nat, parts: nat, d: Docs, d': Docs, p: int, stage: Stage)
    requires DocsOk(n, parts, d) && Later(d, d') && p in d.fanned
    requires ReducerOk(d, p, stage)
    ensures ReducerOk(d', p, stage)
  {
    if stage.HasRead? && stage.order != [] {
      CompleteLater(d, d', p, stage.order, stage.runs);
    }
    if stage.Staged? {
      CompleteLater(d, d', p, stage.attempt.pointers, stage.attempt.runs);
    }
  }

  /** Nothing a worker knows is undone by what others commit. */
  lemma WorkLater(n: nat, parts: nat, d: Docs, d': Docs, sink: Sink, sink': Sink, k: Work)
    requires DocsOk(n, parts, d) && Later(d, d') && SinkLater(sink, sink')
    requires WorkOk(n, parts, d, sink, k)
    ensures WorkOk(n, parts, d', sink', k)
  {
    TaskLater(n, parts, d, d', k.task);
    if IsCheck(k.task) {
      CheckLater(n, parts, d, d', sink, sink', k.task, k.stage);
    }
    if k.task.ReduceTask? {
      ReducerLater(n, parts, d, d', k.task.partition, k.stage);
    }
    if k.task.ReduceDone? {
      ReduceDoneLater(n, parts, d, d', sink, sink', k.task.attempt, k.stage);
    }
  }

  lemma CrewLater(n: nat, parts: nat, d: Docs, d': Docs, sink: Sink, sink': Sink, c: Crew)
    requires DocsOk(n, parts, d) && Later(d, d') && SinkLater(sink, sink')
    requires CrewOk(n, parts, d, sink, c)
    ensures CrewOk(n, parts, d', sink', c)
  {
    forall w | w in c.work ensures WorkOk(n, parts, d', sink', c.work[w]) {
      WorkLater(n, parts, d, d', sink, sink', c.work[w]);
    }
  }

  lemma QueuesLater(n: nat, parts: nat, d: Docs, d': Docs, q: Queues)
    requires DocsOk(n, parts, d) && Later(d, d') && QueuesOk(n, d, q)
    ensures QueuesOk(n, d', q)
  {
    forall t | t in q.tasks ensures TaskOk(n, d', q.tasks[t]) {
      TaskLater(n, parts, d, d', q.tasks[t]);
    }
    forall t | t in q.errs ensures TaskOk(n, d', q.errs[t]) {
      TaskLater(n, parts, d, d', q.errs[t]);
    }
  }
}
