/** The objects behind the logs: ring buffers, the store's batch and table, and the manager that writes to both. */
module LogObjects {
  import opened Wrappers
  import opened Logs
  import opened LogAnswers

  class RingBuffer<T> {
    const capacity: nat
    var buf: seq<T>

    constructor (capacity: nat)
      ensures this.capacity == capacity && buf == []
    {
      this.capacity := capacity;
      buf := [];
    }

    method Push(v: T)
      modifies this
      ensures buf == RingPush(old(buf), v, capacity)
    {
      buf := buf + [v];
      if |buf| > capacity { buf := buf[|buf| - capacity..]; }
    }

    /** A slice from minus `n`, so that zero gives everything. */
    function TailOf(n: nat): seq<T>
      reads this
    {
      Logs.Tail(buf, n)
    }
  }

  class Store {
    var logBuffer: seq<Entry>
    var rows: seq<Entry>

    constructor ()
      ensures logBuffer == [] && rows == []
    {
      logBuffer, rows := [], [];
    }

    method AppendLog(e: Entry)
      modifies this
      ensures var batch := old(logBuffer) + [e];
        if |batch| >= BATCH_SIZE then logBuffer == [] && rows == old(rows) + Rows(batch)
        else logBuffer == batch && rows == old(rows)
    {
      logBuffer := logBuffer + [e];
      if |logBuffer| >= BATCH_SIZE { FlushLogs(); }
    }

    method FlushLogs()
      modifies this
      ensures logBuffer == [] && rows == old(rows) + Rows(old(logBuffer))
    {
      var batch := logBuffer;
      logBuffer := [];
      for i := 0 to |batch|
        invariant logBuffer == [] && rows == old(rows) + Rows(batch[..i])
      {
        assert batch[..i + 1] == batch[..i] + [batch[i]];
        RowsConcat(batch[..i], [batch[i]]);
        rows := rows + [Row(batch[i])];
      }
      assert batch[..|batch|] == batch;
    }

    method RecentLogs(project: ProjectId, limit: nat, since: Option<int>) returns (r: seq<Entry>)
      modifies this
      ensures logBuffer == [] && rows == old(rows) + Rows(old(logBuffer))
      ensures r == LastN(Newer(Of(rows, project), since), limit)
    {
      FlushLogs();
      r := LastN(Newer(Of(rows, project), since), limit);
    }

    method PruneLogs()
      modifies `rows
      ensures rows == Pruned(old(rows), MAX_LOGS)
    {
      rows := Pruned(rows, MAX_LOGS);
    }
  }

  class LogManager {
    const nodeId: Option<string>
    const store: Store
    var buffers: map<ProjectId, RingBuffer<Entry>>
    /** What the objects hold, and the history behind it. */
    ghost var view: State

    ghost predicate Valid()
      reads this, store, buffers.Values
    {
      && view.node == nodeId && store.logBuffer == view.buffer && store.rows == view.rows
      && Holds(view.rings) && Inv(view)
    }

    /** Each project has its own ring buffer. */
    ghost predicate Holds(rings: map<ProjectId, seq<Entry>>)
      reads this`buffers, buffers.Values
    {
      && (forall p :: p in buffers <==> p in rings)
      && (forall p :: p in buffers ==> buffers[p].capacity == RING_SIZE && buffers[p].buf == rings[p])
      && (forall p, q :: p in buffers && q in buffers && buffers[p] == buffers[q] ==> p == q)
    }

    method PushLine(e: Entry, ghost rings: map<ProjectId, seq<Entry>>)
      requires Holds(rings)
      modifies `buffers, buffers.Values
      ensures Holds(rings[e.project := RingPush(if e.project in rings then rings[e.project] else [], e, RING_SIZE)])
      ensures fresh(buffers.Values - old(buffers.Values))
    {
      hide RingPush;
      if e.project !in buffers {
        var ring := new RingBuffer<Entry>(RING_SIZE);
        buffers := buffers[e.project := ring];
      }
      buffers[e.project].Push(e);
    }

    constructor (store: Store, nodeId: Option<string>)
      requires store.logBuffer == [] && store.rows == []
      ensures Valid() && this.store == store && this.nodeId == nodeId && buffers == map[] && view == Start(nodeId)
    {
      this.store, this.nodeId := store, nodeId;
      buffers := map[];
      view := Start(nodeId);
    }

    /** `write`, for a message that has been cleaned and is not blank. */
    method Write(project: ProjectId, now: int, message: string, rest: string)
      requires Valid()
      modifies this, store, buffers.Values
      ensures Valid() && view == Step(old(view), Op.Write(project, now, message, rest))
      ensures fresh(buffers.Values - old(buffers.Values))
    {
      hide Inv, Rows, RingPush, Holds;
      StepKeeps(view, Op.Write(project, now, message, rest));
      var e := Entry(project, now, message, nodeId, rest);
      PushLine(e, view.rings);
      store.AppendLog(e);
      view := Step(view, Op.Write(project, now, message, rest));
    }

    method Flush()
      requires Valid()
      modifies `view, store
      ensures Valid() && view == Step(old(view), Op.Flush)
    {
      hide Inv;
      StepKeeps(view, Op.Flush);
      store.FlushLogs();
      view := Step(view, Op.Flush);
    }

    method Prune()
      requires Valid()
      modifies `view, store
      ensures Valid() && view == Step(old(view), Op.Prune)
    {
      hide Inv;
      StepKeeps(view, Op.Prune);
      store.PruneLogs();
      view := Step(view, Op.Prune);
    }

    method ClearProject(project: ProjectId)
      requires Valid()
      modifies `buffers, `view
      ensures Valid() && view == Step(old(view), Op.Clear(project))
    {
      hide Inv;
      StepKeeps(view, Op.Clear(project));
      buffers := buffers - {project};
      view := Step(view, Op.Clear(project));
    }

    function TailOf(project: ProjectId, n: nat): seq<Entry>
      reads this, buffers.Values
    {
      if project in buffers then buffers[project].TailOf(n) else []
    }

    /** `recent` with nothing in between: the newest entries of the project's whole history. */
    method RecentLogs(project: ProjectId, limit: nat, since: Option<int>) returns (r: seq<Entry>)
      requires Valid()
      modifies `view, store
      ensures Valid() && view.history == old(view.history)
      ensures r == Recent(old(view), [], project, limit, since)
      ensures 1 <= limit <= MAX_LOGS && Ordered(Of(view.history, project), since) ==>
        Shown(r, nodeId) == Shown(Wanted(view.history, project, limit, since), nodeId)
    {
      hide Inv, Of, Newer, LastN, Rows, StampAll, Ordered;
      ghost var s := view;
      var hot := Newer(TailOf(project, limit), since);
      NothingLast<Entry>(limit);
      assert hot == Hot(s, project, limit, since);
      assert Run(Flushed(s), []) == Flushed(s);
      if |hot| >= limit {
        r := hot;
      } else {
        FlushKeeps(view);
        r := store.RecentLogs(project, limit, since);
        view := Flushed(view);
        assert store.rows == Flushed(s).rows;
      }
      r := StampAll(r, nodeId);
      if 1 <= limit <= MAX_LOGS && Ordered(Of(view.history, project), since) {
        RecentIsOneHistory(s, [], project, limit, since);
        assert s.history[..|s.history|] == s.history;
      }
    }
  }
}
