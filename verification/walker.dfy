/**
 The walk over the Sync Queue: every row in stored order is handed to the
 reconciler against the workbook as the earlier rows left it, and the run's
 counters accumulate. Rows only ever gain the check mark, so a second walk
 over the queue a successful run leaves behind changes nothing.
 */
module Walker {

  import opened Settings
  import opened Roster
  import opened Reconcile

  /** The workbook, the queue and the counters at the end of a walk. */
  datatype RunState = RunState(sheets: Sheets, queue: seq<QueueRow>, counters: Counters)

  /** A row every run skips without touching anything: synced or malformed. */
  predicate Settled(q: QueueRow) {
    !Classify(q).Actionable?
  }

  /** The number of queue rows whose `Synced` cell holds the check mark. */
  function SyncedCount(queue: seq<QueueRow>): nat
    decreases |queue|
  {
    if queue == [] then 0 else (if IsSynced(queue[0]) then 1 else 0) + SyncedCount(queue[1..])
  }

  /** Handles the queue rows in order; `io[i]` says which writes the
      store accepts for row `i`. */
  function Walk(cfg: Config, sheets: Sheets, queue: seq<QueueRow>, io: seq<Attempt>, c: Counters): (r: RunState)
    requires Ready(cfg, sheets) && |io| == |queue|
    ensures r.sheets.Keys == sheets.Keys
    ensures |r.queue| == |queue|
    decreases |queue|
  {
    if queue == [] then RunState(sheets, [], c)
    else
      var step := ProcessRow(cfg, sheets, queue[0], io[0], c);
      var rest := Walk(cfg, step.sheets, queue[1..], io[1..], step.counters);
      RunState(rest.sheets, [step.row] + rest.queue, rest.counters)
  }

  /** A walk changes a queue row only by marking an actionable row synced;
      a synced row is never touched, so the mark is never cleared. */
  lemma {:induction false} WalkMarksOnly(cfg: Config, sheets: Sheets, queue: seq<QueueRow>, io: seq<Attempt>, c: Counters)
    requires Ready(cfg, sheets) && |io| == |queue|
    ensures var r := Walk(cfg, sheets, queue, io, c);
      forall i :: 0 <= i < |queue| ==>
        r.queue[i] == queue[i] || (r.queue[i] == Mark(queue[i]) && Classify(queue[i]).Actionable?)
    ensures var r := Walk(cfg, sheets, queue, io, c);
      forall i :: 0 <= i < |queue| && IsSynced(queue[i]) ==> r.queue[i] == queue[i]
    decreases |queue|
  {
    if queue != [] {
      var r := Walk(cfg, sheets, queue, io, c);
      var step := ProcessRow(cfg, sheets, queue[0], io[0], c);
      var rest := Walk(cfg, step.sheets, queue[1..], io[1..], step.counters);
      WalkMarksOnly(cfg, step.sheets, queue[1..], io[1..], step.counters);
      assert r.queue == [step.row] + rest.queue;
      forall i | 1 <= i < |queue|
        ensures r.queue[i] == rest.queue[i - 1] && queue[i] == queue[1..][i - 1]
      {
      }
    }
  }

  /** The counters of a walk: `synced` grows by the number of rows that gained
      the check mark, `added` and `removed` never shrink, and every addition
      belongs to a row marked synced. */
  lemma {:induction false} WalkCounters(cfg: Config, sheets: Sheets, queue: seq<QueueRow>, io: seq<Attempt>, c: Counters)
    requires Ready(cfg, sheets) && |io| == |queue|
    ensures var r := Walk(cfg, sheets, queue, io, c);
      && r.counters.synced == c.synced + SyncedCount(r.queue) - SyncedCount(queue)
      && c.added <= r.counters.added && c.removed <= r.counters.removed
      && r.counters.added - c.added <= r.counters.synced - c.synced
    decreases |queue|
  {
    if queue != [] {
      var r := Walk(cfg, sheets, queue, io, c);
      var step := ProcessRow(cfg, sheets, queue[0], io[0], c);
      var rest := Walk(cfg, step.sheets, queue[1..], io[1..], step.counters);
      WalkCounters(cfg, step.sheets, queue[1..], io[1..], step.counters);
      MarkSyncs(queue[0]);
      assert r.queue == [step.row] + rest.queue;
      assert r.queue[1..] == rest.queue;
    }
  }

  /** One run of the script over the whole queue, counters starting at zero. */
  function Run(cfg: Config, sheets: Sheets, queue: seq<QueueRow>, io: seq<Attempt>): (r: RunState)
    requires Ready(cfg, sheets) && |io| == |queue|
    ensures r.sheets.Keys == sheets.Keys && |r.queue| == |queue|
    ensures r.counters.synced == SyncedCount(r.queue) - SyncedCount(queue)
    ensures r.counters.added <= r.counters.synced
  {
    WalkCounters(cfg, sheets, queue, io, Counters(0, 0, 0));
    Walk(cfg, sheets, queue, io, Counters(0, 0, 0))
  }

  /** A queue of settled rows is walked without any effect. */
  lemma {:induction false} SettledWalkIsNoOp(cfg: Config, sheets: Sheets, queue: seq<QueueRow>, io: seq<Attempt>, c: Counters)
    requires Ready(cfg, sheets) && |io| == |queue|
    requires forall i :: 0 <= i < |queue| ==> Settled(queue[i])
    ensures Walk(cfg, sheets, queue, io, c) == RunState(sheets, queue, c)
    decreases |queue|
  {
    if queue != [] {
      assert forall i :: 0 <= i < |queue[1..]| ==> queue[1..][i] == queue[i + 1];
      SettledWalkIsNoOp(cfg, sheets, queue[1..], io[1..], c);
      assert queue == [queue[0]] + queue[1..];
    }
  }

  /** After a walk, every actionable row whose append landed carries the mark. */
  lemma {:induction false} WalkMarksLanded(cfg: Config, sheets: Sheets, queue: seq<QueueRow>, io: seq<Attempt>, c: Counters)
    requires Ready(cfg, sheets) && |io| == |queue|
    ensures var r := Walk(cfg, sheets, queue, io, c);
      forall i :: 0 <= i < |queue| && Classify(queue[i]).Actionable?
                  && AddLands(sheets.Keys, Classify(queue[i]).newCoach, io[i]) ==>
        r.queue[i] == Mark(queue[i])
    decreases |queue|
  {
    if queue != [] {
      var r := Walk(cfg, sheets, queue, io, c);
      var step := ProcessRow(cfg, sheets, queue[0], io[0], c);
      var rest := Walk(cfg, step.sheets, queue[1..], io[1..], step.counters);
      WalkMarksLanded(cfg, step.sheets, queue[1..], io[1..], step.counters);
      assert r.queue == [step.row] + rest.queue;
      forall i | 1 <= i < |queue|
        ensures r.queue[i] == rest.queue[i - 1] && queue[i] == queue[1..][i - 1] && io[i] == io[1..][i - 1]
      {
      }
    }
  }

  /** After a walk, every row is settled except actionable rows whose append
      to the new coach's sheet did not land. */
  lemma {:induction false} WalkLeavesOnlyFailedAdds(cfg: Config, sheets: Sheets, queue: seq<QueueRow>, io: seq<Attempt>, c: Counters)
    requires Ready(cfg, sheets) && |io| == |queue|
    ensures var r := Walk(cfg, sheets, queue, io, c);
      forall i :: 0 <= i < |queue| ==>
        Settled(r.queue[i])
        || (Classify(queue[i]).Actionable? && !AddLands(sheets.Keys, Classify(queue[i]).newCoach, io[i]))
  {
    var r := Walk(cfg, sheets, queue, io, c);
    WalkMarksOnly(cfg, sheets, queue, io, c);
    WalkMarksLanded(cfg, sheets, queue, io, c);
    forall i | 0 <= i < |queue|
      ensures Settled(r.queue[i])
        || (Classify(queue[i]).Actionable? && !AddLands(sheets.Keys, Classify(queue[i]).newCoach, io[i]))
    {
      MarkSyncs(queue[i]);
    }
  }

  /** If every append of a run lands, a second run over the queue it leaves
      behind skips every row: no sheet, cell or counter changes. */
  lemma {:induction false} RerunIsNoOp(cfg: Config, sheets: Sheets, queue: seq<QueueRow>, io1: seq<Attempt>, io2: seq<Attempt>, c: Counters)
    requires Ready(cfg, sheets) && |io1| == |queue| && |io2| == |queue|
    requires forall i :: 0 <= i < |queue| && Classify(queue[i]).Actionable? ==>
      AddLands(sheets.Keys, Classify(queue[i]).newCoach, io1[i])
    ensures var first := Walk(cfg, sheets, queue, io1, c);
      Walk(cfg, first.sheets, first.queue, io2, first.counters) == first
  {
    var first := Walk(cfg, sheets, queue, io1, c);
    WalkLeavesOnlyFailedAdds(cfg, sheets, queue, io1, c);
    SettledWalkIsNoOp(cfg, first.sheets, first.queue, io2, first.counters);
  }

}
