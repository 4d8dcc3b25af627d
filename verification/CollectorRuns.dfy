/** The batch of the collector class is one of the pipeline's interleavings: left to
    run, a collector saves and acknowledges what `ProcessBatch` does. */
module CollectorRuns {
  import opened Domain
  import opened QueueTypes
  import opened QueueProtocol
  import opened CollectorSpec
  import opened Collector
  import opened Pipeline

  /** The moves of `path`, one after the other, lead from `p` to `p'`. */
  ghost predicate MovesLead(c: Config, p: System, path: seq<Move>, p': System)
    decreases |path|
  {
    if path == [] then p == p'
    else CanMove(c, p, path[0]) && MovesLead(c, Moved(c, p, path[0]), path[1..], p')
  }

  ghost predicate Gets(c: Config, p: System, p': System) {
    exists path :: MovesLead(c, p, path, p')
  }

  lemma GetsItself(c: Config, p: System)
    ensures Gets(c, p, p)
  {
    assert MovesLead(c, p, [], p);
  }

  lemma GetsBy(c: Config, p: System, move: Move, p': System)
    requires CanMove(c, p, move) && Gets(c, Moved(c, p, move), p')
    ensures Gets(c, p, p')
  {
    var path :| MovesLead(c, Moved(c, p, move), path, p');
    assert ([move] + path)[1..] == path;
    assert MovesLead(c, p, [move] + path, p');
  }

  lemma GetsOn(c: Config, p: System, mid: System, p': System)
    requires Gets(c, p, mid) && Gets(c, mid, p')
    ensures Gets(c, p, p')
  {
    var a :| MovesLead(c, p, a, mid);
    GetsAlong(c, p, a, mid, p');
  }

  lemma {:induction false} GetsAlong(c: Config, p: System, path: seq<Move>, mid: System, p': System)
    requires MovesLead(c, p, path, mid) && Gets(c, mid, p')
    ensures Gets(c, p, p')
    decreases |path|
  {
    hide Moved, CanMove;
    if path != [] {
      GetsAlong(c, Moved(c, p, path[0]), path[1..], mid, p');
      GetsBy(c, p, path[0], p');
    }
  }

  /** `p` with collector `i` at another stage. */
  function SetStage(p: System, i: nat, stage: Stage): System
    requires i < |p.consumers|
  {
    p.(consumers := p.consumers[i := p.consumers[i].(stage := stage)])
  }

  // ------------------------------------------------------------- single moves

  lemma StartMove(c: Config, p: System, i: nat)
    requires i < |p.consumers| && p.consumers[i].stage.Gathering? && p.consumers[i].batch != []
    ensures CanMove(c, p, ConsumerMove(i, StartBatch))
    ensures Moved(c, p, ConsumerMove(i, StartBatch)) == SetStage(p, i, SavingGpus(MergeAll(p.consumers[i].batch).Keys))
  {
    assert p.saved + [] == p.saved;
  }

  lemma SaveGpuMove(c: Config, p: System, i: nat, todo: set<string>, u: string)
    requires i < |p.consumers| && p.consumers[i].stage == SavingGpus(todo) && u in todo && u in MergeAll(p.consumers[i].batch)
    ensures CanMove(c, p, ConsumerMove(i, SaveGpu(u)))
    ensures Moved(c, p, ConsumerMove(i, SaveGpu(u))) ==
            SetStage(p, i, SavingGpus(todo - {u})).(gpus := p.gpus[u := MergeAll(p.consumers[i].batch)[u]])
  {
    hide MergeAll;
    assert p.saved + [] == p.saved;
  }

  lemma GpusDoneMove(c: Config, p: System, i: nat)
    requires i < |p.consumers| && p.consumers[i].stage == SavingGpus({})
    ensures CanMove(c, p, ConsumerMove(i, GpusDone))
    ensures Moved(c, p, ConsumerMove(i, GpusDone)) == SetStage(p, i, SavingRecords(0, []))
  {
    assert p.saved + [] == p.saved;
  }

  lemma SaveNextMove(c: Config, p: System, i: nat, next: nat, done: seq<Message>)
    requires i < |p.consumers| && p.consumers[i].stage == SavingRecords(next, done) && next < |p.consumers[i].batch|
    ensures CanMove(c, p, ConsumerMove(i, SaveNext))
    ensures var m := p.consumers[i].batch[next];
            var one := if MessageOk(m) then [m] else [];
            Moved(c, p, ConsumerMove(i, SaveNext)) ==
            SetStage(p, i, SavingRecords(next + 1, done + one)).(saved := p.saved + one)
  {
  }

  lemma RecordsDoneMove(c: Config, p: System, i: nat, done: seq<Message>)
    requires i < |p.consumers| && p.consumers[i].stage == SavingRecords(|p.consumers[i].batch|, done)
    ensures CanMove(c, p, ConsumerMove(i, RecordsDone))
    ensures Moved(c, p, ConsumerMove(i, RecordsDone)) == SetStage(p, i, Acking(done, 0))
  {
    assert p.saved + [] == p.saved;
  }

  /** What an Ack leaves of the queue. */
  function Acked(s: State, id: string, consumerId: string): State {
    if id in s.pending && s.pending[id].consumerId == consumerId
    then s.(pending := s.pending - {id}, hist := s.hist.(acked := s.hist.acked + [s.pending[id].message]))
    else s
  }

  lemma AckMove(c: Config, p: System, i: nat, done: seq<Message>, next: nat)
    requires i < |p.consumers| && p.consumers[i].stage == Acking(done, next) && next < |done| && NoReaders(p.queue)
    ensures CanMove(c, p, ConsumerMove(i, AckNext))
    ensures Moved(c, p, ConsumerMove(i, AckNext)) ==
            SetStage(p, i, Acking(done, next + 1)).(queue := Acked(p.queue, done[next].id, p.consumers[i].consumerId))
  {
    assert p.saved + [] == p.saved;
  }

  lemma BatchDoneMove(c: Config, p: System, i: nat, done: seq<Message>)
    requires i < |p.consumers| && p.consumers[i].stage == Acking(done, |done|)
    ensures CanMove(c, p, ConsumerMove(i, BatchDone))
    ensures Moved(c, p, ConsumerMove(i, BatchDone)) ==
            p.(consumers := p.consumers[i := p.consumers[i].(batch := [], stage := Gathering)])
  {
    assert p.saved + [] == p.saved;
  }

  // ------------------------------------------------------------ whole phases

  function Part(gpus: map<string, Gpu>, uuids: set<string>): map<string, Gpu>
    requires uuids <= gpus.Keys
  {
    map u | u in uuids :: gpus[u]
  }

  lemma PartStep(before: map<string, Gpu>, gpus: map<string, Gpu>, uuids: set<string>, u: string)
    requires u in uuids && uuids <= gpus.Keys
    ensures before[u := gpus[u]] + Part(gpus, uuids - {u}) == before + Part(gpus, uuids)
  {
  }

  lemma {:induction false} GpusPhase(c: Config, p: System, i: nat, todo: set<string>)
    requires i < |p.consumers| && p.consumers[i].stage == SavingGpus(todo) && todo <= MergeAll(p.consumers[i].batch).Keys
    ensures Gets(c, p, SetStage(p, i, SavingRecords(0, [])).(gpus := p.gpus + Part(MergeAll(p.consumers[i].batch), todo)))
    decreases |todo|
  {
    var merged := MergeAll(p.consumers[i].batch);
    var end := SetStage(p, i, SavingRecords(0, [])).(gpus := p.gpus + Part(merged, todo));
    hide MergeAll, Moved, CanMove, Gets;
    if todo == {} {
      GpusDoneMove(c, p, i);
      assert p.gpus + Part(merged, {}) == p.gpus;
      GetsItself(c, end);
      GetsBy(c, p, ConsumerMove(i, GpusDone), end);
    } else {
      var u :| u in todo;
      SaveGpuMove(c, p, i, todo, u);
      var p1 := SetStage(p, i, SavingGpus(todo - {u})).(gpus := p.gpus[u := merged[u]]);
      GpusPhase(c, p1, i, todo - {u});
      PartStep(p.gpus, merged, todo, u);
      assert SetStage(p1, i, SavingRecords(0, [])).(gpus := p1.gpus + Part(merged, todo - {u})) == end;
      GetsBy(c, p, ConsumerMove(i, SaveGpu(u)), end);
    }
  }

  lemma {:induction false} RecordsPhase(c: Config, p: System, i: nat, next: nat, before: seq<Message>)
    requires i < |p.consumers| && next <= |p.consumers[i].batch|
    requires p.consumers[i].stage == SavingRecords(next, Processed(p.consumers[i].batch[..next]))
    requires p.saved == before + Processed(p.consumers[i].batch[..next])
    ensures var ok := Processed(p.consumers[i].batch);
            Gets(c, p, SetStage(p, i, Acking(ok, 0)).(saved := before + ok))
    decreases |p.consumers[i].batch| - next
  {
    var batch := p.consumers[i].batch;
    var ok, done := Processed(batch), Processed(batch[..next]);
    var end := SetStage(p, i, Acking(ok, 0)).(saved := before + ok);
    if next == |batch| {
      assert batch[..next] == batch;
      hide Moved, CanMove, Gets, Processed;
      RecordsDoneMove(c, p, i, done);
      GetsItself(c, end);
      GetsBy(c, p, ConsumerMove(i, RecordsDone), end);
    } else {
      var m := batch[next];
      var one := if MessageOk(m) then [m] else [];
      assert batch[..next + 1][..next] == batch[..next] && batch[..next + 1][next] == m;
      assert Processed(batch[..next + 1]) == done + one;
      hide Moved, CanMove, Gets, Processed, MessageOk;
      SaveNextMove(c, p, i, next, done);
      var p1 := SetStage(p, i, SavingRecords(next + 1, done + one)).(saved := p.saved + one);
      assert (before + done) + one == before + (done + one);
      RecordsPhase(c, p1, i, next + 1, before);
      assert SetStage(p1, i, Acking(ok, 0)).(saved := before + ok) == end;
      GetsBy(c, p, ConsumerMove(i, SaveNext), end);
    }
  }

  /** `p` with this queue and collector `i` waiting for its next batch. */
  function Rested(p: System, i: nat, queue: State): System
    requires i < |p.consumers|
  {
    p.(queue := queue, consumers := p.consumers[i := p.consumers[i].(batch := [], stage := Gathering)])
  }

  lemma RestedAnyway(p: System, i: nat, stage: Stage, queue: State, queue': State)
    requires i < |p.consumers|
    ensures Rested(SetStage(p, i, stage).(queue := queue), i, queue') == Rested(p, i, queue')
    ensures Rested(p, i, p.queue) == p.(consumers := p.consumers[i := p.consumers[i].(batch := [], stage := Gathering)])
  {
  }

  /** The queue differs by what has been acknowledged only. */
  ghost predicate OnlyAcked(s: State, pending: map<string, Pending>, s': State) {
    s' == s.(pending := pending, hist := s.hist.(acked := s'.hist.acked))
  }

  lemma AckedIsAckOne(s: State, id: string, consumerId: string)
    ensures OnlyAcked(s, AckOne(s.pending, id, consumerId), Acked(s, id, consumerId))
  {
  }

  lemma OnlyAckedOn(s: State, mid: State, s': State)
    requires OnlyAcked(s, mid.pending, mid) && OnlyAcked(mid, s'.pending, s')
    ensures OnlyAcked(s, s'.pending, s') && (NoReaders(s) ==> NoReaders(mid))
  {
  }

  lemma {:induction false} AcksPhase(c: Config, p: System, i: nat, done: seq<Message>, next: nat, before: map<string, Pending>)
    returns (queue: State)
    requires i < |p.consumers| && next <= |done| && p.consumers[i].stage == Acking(done, next) && NoReaders(p.queue)
    requires p.queue.pending == AckAll(before, done[..next], p.consumers[i].consumerId)
    ensures OnlyAcked(p.queue, queue.pending, queue) && queue.pending == AckAll(before, done, p.consumers[i].consumerId)
    ensures Gets(c, p, Rested(p, i, queue))
    decreases |done| - next
  {
    var k := p.consumers[i];
    if next == |done| {
      assert done[..next] == done;
      queue := p.queue;
      BatchDoneMove(c, p, i, done);
      RestedAnyway(p, i, k.stage, queue, queue);
      hide Moved, CanMove, Gets, AckAll, Rested;
      GetsItself(c, Rested(p, i, queue));
      GetsBy(c, p, ConsumerMove(i, BatchDone), Rested(p, i, queue));
    } else {
      var id := done[next].id;
      assert done[..next + 1][..next] == done[..next] && done[..next + 1][next] == done[next];
      assert AckAll(before, done[..next + 1], k.consumerId) == AckOne(p.queue.pending, id, k.consumerId);
      hide Moved, CanMove, Gets, AckAll, AckOne, Acked, Rested;
      var s1 := Acked(p.queue, id, k.consumerId);
      var p1 := SetStage(p, i, Acking(done, next + 1)).(queue := s1);
      AckMove(c, p, i, done, next);
      AckedIsAckOne(p.queue, id, k.consumerId);
      assert NoReaders(s1);
      queue := AcksPhase(c, p1, i, done, next + 1, before);
      OnlyAckedOn(p.queue, s1, queue);
      RestedAnyway(p, i, Acking(done, next + 1), s1, queue);
      hide OnlyAcked, NoReaders;
      GetsBy(c, p, ConsumerMove(i, AckNext), Rested(p, i, queue));
    }
  }

  /** A collector left to run with its batch gets to where `ProcessBatch` gets: the
      merged GPUs are saved, the valid messages' records appended in order, its own
      pending entries for those messages removed, and the batch is empty. */
  lemma BatchGetsDone(c: Config, p: System, i: nat) returns (p': System)
    requires i < |p.consumers| && p.consumers[i].stage.Gathering? && p.consumers[i].batch != [] && NoReaders(p.queue)
    ensures Gets(c, p, p')
    ensures var k := p.consumers[i];
            && p'.gpus == p.gpus + MergeAll(k.batch)
            && p'.saved == p.saved + Processed(k.batch)
            && p'.queue.pending == AckAll(p.queue.pending, Processed(k.batch), k.consumerId)
            && p'.consumers == p.consumers[i := k.(batch := [], stage := Gathering)]
  {
    var k := p.consumers[i];
    var merged, ok := MergeAll(k.batch), Processed(k.batch);
    assert Processed(k.batch[..0]) == [] && AckAll(p.queue.pending, ok[..0], k.consumerId) == p.queue.pending;
    assert Part(merged, merged.Keys) == merged;
    hide MergeAll, Processed, AckAll, Moved, CanMove, Gets;
    StartMove(c, p, i);
    var p1 := SetStage(p, i, SavingGpus(merged.Keys));
    GpusPhase(c, p1, i, merged.Keys);
    var p2 := SetStage(p1, i, SavingRecords(0, [])).(gpus := p.gpus + merged);
    assert p.saved + [] == p.saved;
    RecordsPhase(c, p2, i, 0, p.saved);
    var p3 := SetStage(p2, i, Acking(ok, 0)).(saved := p.saved + ok);
    var queue := AcksPhase(c, p3, i, ok, 0, p.queue.pending);
    p' := Rested(p3, i, queue);
    GetsOn(c, p2, p3, p');
    GetsOn(c, p1, p2, p');
    GetsBy(c, p, ConsumerMove(i, StartBatch), p');
  }
}
