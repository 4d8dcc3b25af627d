/** The collector of internal/collector/collector.go, consuming from the
    in-memory queue and writing to the in-memory store. */
module Collector {
  import opened Domain
  import opened CollectorSpec
  import opened QueueTypes
  import opened InMemoryQueue
  import opened MemoryStore
  import opened MemoryStoreSpec

  datatype CollectorError = MissingPayload | InvalidRecord

  /** An Ack removes the consumer's own entry. */
  function AckOne(pending: map<string, Pending>, id: string, consumerId: string): map<string, Pending> {
    if id in pending && pending[id].consumerId == consumerId then pending - {id} else pending
  }

  /** The pending map after acknowledging `ms` in order as `consumerId`. */
  function AckAll(pending: map<string, Pending>, ms: seq<Message>, consumerId: string): map<string, Pending> {
    if ms == [] then pending
    else AckOne(AckAll(pending, ms[..|ms| - 1], consumerId), ms[|ms| - 1].id, consumerId)
  }

  /** Acknowledging removes exactly the consumer's own entries for those messages. */
  lemma {:induction false} AckAllRemoves(pending: map<string, Pending>, ms: seq<Message>, consumerId: string, id: string)
    ensures id in AckAll(pending, ms, consumerId) <==>
              id in pending && !(pending[id].consumerId == consumerId && exists k :: 0 <= k < |ms| && ms[k].id == id)
    ensures id in AckAll(pending, ms, consumerId) ==> AckAll(pending, ms, consumerId)[id] == pending[id]
  {
    if ms == [] {
    } else {
      var n := |ms| - 1;
      AckAllRemoves(pending, ms[..n], consumerId, id);
      assert ms[n].id == id ==> exists k :: 0 <= k < |ms| && ms[k].id == id;
      if exists k :: 0 <= k < |ms[..n]| && ms[..n][k].id == id {
        var k :| 0 <= k < |ms[..n]| && ms[..n][k].id == id;
        assert ms[k].id == id;
      }
      if ms[n].id != id && exists k :: 0 <= k < |ms| && ms[k].id == id {
        var k :| 0 <= k < |ms| && ms[k].id == id;
        assert ms[..n][k].id == id;
      }
    }
  }

  /** `saved` holds each of `uuids` exactly once, and nothing else. */
  ghost predicate Once(saved: seq<string>, uuids: set<string>) {
    && (forall i, j :: 0 <= i < j < |saved| ==> saved[i] != saved[j])
    && (forall u :: u in saved <==> u in uuids)
  }

  /** Every GPU with retained telemetry has been saved. */
  ghost predicate Covered(store: Store)
    reads store
  {
    Uuids(store.telemetry) <= store.gpus.Keys
  }

  /** Saving keeps only UUIDs that were retained before or come with the record. */
  lemma SavedUuids(m: nat, history: seq<TelemetryRecord>, r: TelemetryRecord)
    ensures Uuids(Retained(m, history + [r])) <= Uuids(Retained(m, history)) + {r.gpuUuid}
  {
    assert (history + [r])[..|history|] == history;
    var tel := Retained(m, history);
    var kept := if |tel| >= m then DropOldest(tel, EvictCount(m)) else tel;
    UuidsSnoc(kept, r);
    assert forall i :: 0 <= i < |kept| ==> kept[i] in tel;
  }

  class Collector {
    const batchSize: int
    const instanceId: string
    const store: Store
    const queue: InMemoryMessageQueue
    var processedCount: nat
    var errorCount: nat

    ghost var batches: seq<seq<Message>>  // the batches handed to ProcessBatch
    ghost var acked: seq<Message>         // the messages an Ack was attempted for

    constructor (batchSize: int, instanceId: string, queue: InMemoryMessageQueue, store: Store)
      ensures this.batchSize == batchSize && this.instanceId == instanceId
      ensures this.queue == queue && this.store == store
      ensures processedCount == errorCount == 0 && batches == [] && acked == []
    {
      this.batchSize, this.instanceId, this.queue, this.store := batchSize, instanceId, queue, store;
      processedCount, errorCount, batches, acked := 0, 0, [], [];
    }

    ghost predicate Valid()
      reads this, store, queue
    {
      store.Valid() && queue.Valid()
    }

    /** Validates the message and saves its record. */
    method ProcessMessage(msg: Message, gpuMap: map<string, Gpu>)
      returns (err: Option<CollectorError>, gpuMap': map<string, Gpu>)
      requires Valid()
      modifies store
      ensures Valid() && store.gpus == old(store.gpus)
      ensures err == if msg.payload.None? then Some(MissingPayload)
                     else if !RecordOk(msg.payload.value) then Some(InvalidRecord) else None
      ensures err.None? <==> msg.payload.Some? && msg.payload.value.gpuUuid != ""
                             && msg.payload.value.metricName != "" && msg.payload.value.ingestionTime != 0
      ensures store.history == old(store.history) + if err.None? then [msg.payload.value] else []
      ensures store.writes == old(store.writes) + if err.None? then [RecordWrite(msg.payload.value)] else []
      ensures gpuMap' == if err.None? then MergeGpu(gpuMap, msg) else gpuMap
      ensures old(Covered(store)) && (err.None? ==> msg.payload.value.gpuUuid in store.gpus) ==> Covered(store)
    {
      hide Retained, ReindexCost, IndexAgrees;
      gpuMap' := gpuMap;
      if msg.payload.None? { return Some(MissingPayload), gpuMap'; }
      var record := msg.payload.value;
      if record.gpuUuid == "" || record.metricName == "" || record.ingestionTime == 0 {
        return Some(InvalidRecord), gpuMap';
      }
      var gpu := GpuOf(record);
      if gpu.uuid !in gpuMap' || (gpu.model != "" && gpuMap'[gpu.uuid].model == "") {
        gpuMap' := gpuMap'[gpu.uuid := gpu];
      }
      SavedUuids(store.maxRecords, store.history, record);
      var saveErr := store.SaveTelemetry(Some(record));
      if saveErr.Some? {
        assert false;  // the memory store refuses only records without a UUID
      }
      err := None;
    }

    /** The first pass: one GPU per UUID. */
    method CollectGpus(batch: seq<Message>) returns (gpuMap: map<string, Gpu>)
      ensures gpuMap == MergeAll(batch)
    {
      gpuMap := map[];
      var i := 0;
      while i < |batch|
        invariant 0 <= i <= |batch|
        invariant gpuMap == MergeAll(batch[..i])
      {
        var msg := batch[i];
        assert batch[..i + 1][..i] == batch[..i];
        if msg.payload.Some? && msg.payload.value.gpuUuid != "" {
          var gpu := GpuOf(msg.payload.value);
          if gpu.uuid !in gpuMap || (gpu.model != "" && gpuMap[gpu.uuid].model == "") {
            gpuMap := gpuMap[gpu.uuid := gpu];
          }
        }
        i := i + 1;
      }
      assert batch[..i] == batch;
    }

    /** Saves every GPU of the map, each exactly once. */
    method SaveGpus(gpuMap: map<string, Gpu>) returns (ghost saved: seq<string>)
      requires Valid()
      requires forall u :: u in gpuMap ==> u != "" && gpuMap[u].uuid == u
      modifies store`gpus, store`writes
      ensures Valid() && store.gpus == old(store.gpus) + gpuMap
      ensures store.writes == old(store.writes) + GpuWrites(saved)
      ensures Once(saved, gpuMap.Keys)
    {
      hide Retained, ReindexCost, IndexAgrees, Uuids, GpusSaved;
      var todo := gpuMap.Keys;
      saved := [];
      NoGpuSavedYet(store.gpus, gpuMap);
      while todo != {}
        invariant todo <= gpuMap.Keys && Valid()
        invariant GpusSaved(old(store.gpus), gpuMap, todo, store.gpus)
        invariant store.writes == old(store.writes) + GpuWrites(saved)
        invariant Once(saved, gpuMap.Keys - todo)
        decreases todo
      {
        var uuid :| uuid in todo;
        GpusSavedOneMore(old(store.gpus), gpuMap, todo, store.gpus, uuid);
        todo := todo - {uuid};
        var _ := store.SaveGpu(Some(gpuMap[uuid]));
        saved := saved + [uuid];
      }
      GpusSavedAll(old(store.gpus), gpuMap, store.gpus);
    }

    /** The second pass: what can be saved is saved, in order, and the GPU map stays as it is. */
    method SaveRecords(batch: seq<Message>, gpuMap: map<string, Gpu>) returns (processed: seq<Message>)
      requires Valid() && gpuMap == MergeAll(batch) && gpuMap.Keys <= store.gpus.Keys
      modifies store, this`processedCount, this`errorCount
      ensures Valid() && store.gpus == old(store.gpus)
      ensures processed == Processed(batch)
      ensures store.writes == old(store.writes) + RecordWrites(RecordsOf(processed))
      ensures store.history == old(store.history) + RecordsOf(processed)
      ensures processedCount == old(processedCount) + |processed|
      ensures errorCount == old(errorCount) + |batch| - |processed|
      ensures old(Covered(store)) ==> Covered(store)
    {
      hide MergeAll, MergeGpu, Covered, Retained, ReindexCost, IndexAgrees, Uuids;
      processed := [];
      var merged := gpuMap;
      var i := 0;
      while i < |batch|
        invariant 0 <= i <= |batch| && Valid() && store.gpus == old(store.gpus)
        invariant merged == gpuMap
        invariant processed == Processed(batch[..i])
        invariant store.writes == old(store.writes) + RecordWrites(RecordsOf(processed))
        invariant store.history == old(store.history) + RecordsOf(processed)
        invariant processedCount == old(processedCount) + |processed|
        invariant errorCount == old(errorCount) + i - |processed|
        invariant old(Covered(store)) ==> Covered(store)
      {
        var msg := batch[i];
        assert batch[..i + 1][..i] == batch[..i];
        SecondPassChangesNothing(batch, i);
        if MessageOk(msg) { RecordIsCovered(batch, i); }
        var err;
        err, merged := ProcessMessage(msg, merged);
        if err.Some? {
          errorCount := errorCount + 1;
        } else {
          processedCount := processedCount + 1;
          RecordsOfSnoc(processed, msg);
          processed := processed + [msg];
        }
        i := i + 1;
      }
      assert batch[..i] == batch;
    }

    /** Acknowledges one message; what comes of it is the queue's business. */
    method AckMessage(msg: Message)
      requires Valid()
      modifies queue`pendingMessages, this`acked
      ensures Valid() && acked == old(acked) + [msg]
      ensures queue.pendingMessages == AckOne(old(queue.pendingMessages), msg.id, instanceId)
    {
      hide Store.Valid;
      var _ := queue.Ack(msg.id, instanceId);
      acked := acked + [msg];
    }

    method AckMessages(processed: seq<Message>)
      requires Valid()
      modifies queue`pendingMessages, this`acked
      ensures Valid()
      ensures acked == old(acked) + processed
      ensures queue.pendingMessages == AckAll(old(queue.pendingMessages), processed, instanceId)
    {
      hide Valid, AckOne;
      var i := 0;
      while i < |processed|
        invariant 0 <= i <= |processed| && Valid()
        invariant acked == old(acked) + processed[..i]
        invariant queue.pendingMessages == AckAll(old(queue.pendingMessages), processed[..i], instanceId)
      {
        assert processed[..i + 1] == processed[..i] + [processed[i]];
        AckMessage(processed[i]);
        i := i + 1;
      }
      assert processed[..i] == processed;
    }

    /** GPUs first, then telemetry, then an Ack for exactly the messages saved. */
    method ProcessBatch(batch: seq<Message>) returns (ghost kept: seq<nat>)
      requires Valid()
      modifies store, queue`pendingMessages, this`processedCount, this`errorCount, this`acked
      ensures Valid()
      ensures store.gpus == old(store.gpus) + MergeAll(batch)
      ensures exists saved :: Once(saved, MergeAll(batch).Keys)
                              && store.writes == old(store.writes) + GpuWrites(saved) + RecordWrites(RecordsOf(Processed(batch)))
      ensures store.history == old(store.history) + RecordsOf(Processed(batch))
      ensures acked == old(acked) + Processed(batch)
      ensures queue.pendingMessages == AckAll(old(queue.pendingMessages), Processed(batch), instanceId)
      ensures processedCount == old(processedCount) + |Processed(batch)|
      ensures processedCount + errorCount == old(processedCount + errorCount) + |batch|
      ensures old(Covered(store)) ==> Covered(store)
      ensures forall x, y :: 0 <= x < y < |kept| ==> kept[x] < kept[y]
      ensures forall i: nat :: i in kept <==>
                i < |batch| && batch[i].payload.Some? && batch[i].payload.value.gpuUuid != ""
                && batch[i].payload.value.metricName != "" && batch[i].payload.value.ingestionTime != 0
      ensures |acked| == |old(acked)| + |kept| && |store.history| == |old(store.history)| + |kept|
      ensures forall k :: 0 <= k < |kept| ==>
                kept[k] < |batch| && batch[kept[k]].payload.Some?
                && acked[|old(acked)| + k] == batch[kept[k]]
                && store.history[|old(store.history)| + k] == batch[kept[k]].payload.value
    {
      kept := ProcessedAre(batch);
      hide Valid, Covered, Once, Processed, RecordsOf, MergeAll, AckAll, GpuWrites, RecordWrites;
      HandledAre(batch, kept, acked, store.history);
      if |batch| == 0 {
        NothingInBatch(batch);
        assert store.writes == old(store.writes) + GpuWrites([]) + RecordWrites([]);
        return;
      }
      SaveThenAck(batch);
    }

    method SaveThenAck(batch: seq<Message>)
      requires Valid()
      modifies store, queue`pendingMessages, this`processedCount, this`errorCount, this`acked
      ensures Valid()
      ensures store.gpus == old(store.gpus) + MergeAll(batch)
      ensures exists saved :: Once(saved, MergeAll(batch).Keys)
                              && store.writes == old(store.writes) + GpuWrites(saved) + RecordWrites(RecordsOf(Processed(batch)))
      ensures store.history == old(store.history) + RecordsOf(Processed(batch))
      ensures acked == old(acked) + Processed(batch)
      ensures queue.pendingMessages == AckAll(old(queue.pendingMessages), Processed(batch), instanceId)
      ensures processedCount == old(processedCount) + |Processed(batch)|
      ensures processedCount + errorCount == old(processedCount + errorCount) + |batch|
      ensures old(Covered(store)) ==> Covered(store)
    {
      hide Processed, RecordsOf, AckAll;
      var gpuMap := CollectGpus(batch);
      MergedGpusAreNamed(batch);
      hide MergeAll;
      ghost var saved := SaveGpus(gpuMap);
      var processed := SaveRecords(batch, gpuMap);
      AckMessages(processed);
    }

    /** What one event makes the loop do.  The first `len` cells of the buffer are
        in use; a batch handed over is emptied in place. */
    method OnEvent(event: Event, buffer: array<Message>, len: nat) returns (buffer': array<Message>, len': nat)
      requires Valid() && len <= buffer.Length
      modifies store, queue`pendingMessages, this, buffer
      ensures Valid() && len' <= buffer'.Length && (buffer' == buffer || fresh(buffer'))
      ensures buffer'[..len'] == Kept(event, old(buffer[..len]), batchSize)
      ensures var cut := Cut(event, old(buffer[..len]), batchSize);
              batches == old(batches) + cut && Tally() == AfterHandling(old(Tally()), Concat(cut))
      ensures var held := old(buffer[..len]);
              var arrived := event.Arrived?;
              && (arrived && |held| + 1 < batchSize ==> batches == old(batches) && buffer'[..len'] == held + [event.m])
              && (arrived && |held| + 1 >= batchSize ==> batches == old(batches) + [held + [event.m]] && len' == 0)
              && (!arrived && held == [] ==> batches == old(batches) && len' == 0)
              && (!arrived && held != [] ==> batches == old(batches) + [held] && len' == 0)
      ensures old(Covered(store)) ==> Covered(store)
    {
      hide Retained, Uuids, Processed, RecordsOf, MergeAll, AckAll, Covered, ReindexCost, IndexAgrees;
      NothingProcessed();
      buffer', len' := buffer, len;
      if event.Arrived? {
        buffer' := Append(buffer, len, event.m);
        len' := len + 1;
        if len' < batchSize { return; }
      }
      if len' > 0 {
        ghost var batch := buffer'[..len'];
        SingleBatch(batch);
        ghost var kept := ProcessBatch(buffer'[..len']);
        batches := batches + [batch];
        len' := 0;
      }
    }

    ghost function Tally(): Totals
      reads this, store
    {
      Totals(store.history, acked, processedCount, processedCount + errorCount)
    }

    /** The receive loop, on the events its select sees.  What is returned is
        still buffered: nothing, on exit. */
    method ProcessMessages(events: seq<Event>) returns (buffered: seq<Message>)
      requires Valid()
      modifies store, queue`pendingMessages, this
      ensures Valid() && (old(Covered(store)) ==> Covered(store))
      ensures batches == old(batches) + Batches(events, [], batchSize)
      ensures buffered == Leftover(events, [], batchSize)
      ensures Tally() == AfterHandling(old(Tally()), Concat(Batches(events, [], batchSize)))
    {
      hide *;
      ghost var done: seq<seq<Message>> := [];
      NothingHandled(Tally());
      var buffer := new Message[0];
      var len: nat := 0;
      var i := 0;
      StartSplit(events, buffer[..len], batchSize);
      while i < |events|
        invariant 0 <= i <= |events| && len <= buffer.Length && fresh(buffer) && Valid()
        invariant batches == old(batches) + done
        invariant Splits(events, i, done, buffer[..len], batchSize)
        invariant Tally() == AfterHandling(old(Tally()), Concat(done))
        invariant old(Covered(store)) ==> Covered(store)
      {
        var event := events[i];
        ghost var cut := Cut(event, buffer[..len], batchSize);
        SplitStep(events, i, done, buffer[..len], batchSize);
        HandleMore(old(Tally()), done, cut);
        buffer, len := OnEvent(event, buffer, len);
        done := done + cut;
        i := i + 1;
        if event.Exits() { return []; }
      }
      EndSplit(events, done, buffer[..len], batchSize);
      buffered := buffer[..len];
    }
  }

  lemma NothingInBatch(batch: seq<Message>)
    requires |batch| == 0
    ensures Processed(batch) == [] && RecordsOf(Processed(batch)) == [] && MergeAll(batch) == map[]
    ensures Once([], MergeAll(batch).Keys)
    ensures forall pending, consumerId :: AckAll(pending, Processed(batch), consumerId) == pending
    ensures GpuWrites([]) == [] && RecordWrites(RecordsOf(Processed(batch))) == []
  {
  }

  /** Where the messages handled by a batch, and their records, come to stand. */
  lemma HandledAre(batch: seq<Message>, kept: seq<nat>, acked: seq<Message>, saved: seq<TelemetryRecord>)
    requires |Processed(batch)| == |kept|
    requires forall k :: 0 <= k < |kept| ==> kept[k] < |batch| && Processed(batch)[k] == batch[kept[k]]
    ensures |acked + Processed(batch)| == |acked| + |kept| && |saved + RecordsOf(Processed(batch))| == |saved| + |kept|
    ensures forall k :: 0 <= k < |kept| ==>
              batch[kept[k]].payload.Some?
              && (acked + Processed(batch))[|acked| + k] == batch[kept[k]]
              && (saved + RecordsOf(Processed(batch)))[|saved| + k] == batch[kept[k]].payload.value
  {
  }

  /** What a collector has done so far: records saved, Acks attempted, messages
      processed, messages processed or failed. */
  datatype Totals = Totals(history: seq<TelemetryRecord>, acked: seq<Message>, processed: int, counted: int)

  /** Handling messages saves and acknowledges exactly the valid ones, in order,
      and counts every one once. */
  function AfterHandling(t: Totals, handled: seq<Message>): Totals {
    var ok := Processed(handled);
    Totals(t.history + RecordsOf(ok), t.acked + ok, t.processed + |ok|, t.counted + |handled|)
  }

  lemma NothingHandled(t: Totals)
    ensures AfterHandling(t, Concat([])) == t
  {
  }

  /** `done` has been cut, and the rest of the events go on from `buffer`. */
  ghost predicate Splits(events: seq<Event>, i: nat, done: seq<seq<Message>>, buffer: seq<Message>, size: int)
    requires i <= |events|
  {
    && done + Batches(events[i..], buffer, size) == Batches(events, [], size)
    && Leftover(events[i..], buffer, size) == Leftover(events, [], size)
  }

  lemma StartSplit(events: seq<Event>, buffer: seq<Message>, size: int)
    requires |buffer| == 0
    ensures Splits(events, 0, [], buffer, size)
  {
    assert events[0..] == events && buffer == [];
  }

  lemma SplitStep(events: seq<Event>, i: nat, done: seq<seq<Message>>, buffer: seq<Message>, size: int)
    requires i < |events| && Splits(events, i, done, buffer, size)
    ensures var done' := done + Cut(events[i], buffer, size);
            if events[i].Exits() then Batches(events, [], size) == done' && Leftover(events, [], size) == []
            else Splits(events, i + 1, done', Kept(events[i], buffer, size), size)
  {
    hide Batches, Leftover, Cut, Kept;
    BatchesStep(events, i, buffer, size);
    var cut := Cut(events[i], buffer, size);
    if !events[i].Exits() {
      var rest := Batches(events[i + 1..], Kept(events[i], buffer, size), size);
      assert (done + cut) + rest == done + (cut + rest);
    } else {
      assert cut + [] == cut;
    }
  }

  lemma EndSplit(events: seq<Event>, done: seq<seq<Message>>, buffer: seq<Message>, size: int)
    requires Splits(events, |events|, done, buffer, size)
    ensures Batches(events, [], size) == done && Leftover(events, [], size) == buffer
  {
    assert events[|events|..] == [];
  }

  lemma BatchesStep(events: seq<Event>, i: nat, buffer: seq<Message>, size: int)
    requires i < |events|
    ensures Batches(events[i..], buffer, size) == Cut(events[i], buffer, size)
            + if events[i].Exits() then [] else Batches(events[i + 1..], Kept(events[i], buffer, size), size)
    ensures Leftover(events[i..], buffer, size) ==
            if events[i].Exits() then [] else Leftover(events[i + 1..], Kept(events[i], buffer, size), size)
  {
    assert events[i..][0] == events[i] && events[i..][1..] == events[i + 1..];
  }

  /** Go's append to a slice: in place while there is capacity, else into a larger array. */
  method Append(buffer: array<Message>, len: nat, msg: Message) returns (buffer': array<Message>)
    requires len <= buffer.Length
    modifies buffer
    ensures len < buffer'.Length && buffer'[..len + 1] == old(buffer[..len]) + [msg]
    ensures buffer' == buffer || fresh(buffer')
  {
    if len < buffer.Length {
      buffer' := buffer;
    } else {
      buffer' := new Message[2 * len + 1];
      var k := 0;
      while k < len
        invariant 0 <= k <= len
        invariant buffer'[..k] == buffer[..k]
        invariant buffer[..] == old(buffer[..])
      {
        buffer'[k] := buffer[k];
        k := k + 1;
      }
    }
    buffer'[len] := msg;
  }

  lemma NothingProcessed()
    ensures Concat([]) == [] && Processed([]) == [] && RecordsOf(Processed([])) == []
  {
  }

  lemma SingleBatch(batch: seq<Message>)
    ensures Concat([batch]) == batch
  {
    assert [batch][1..] == [];
  }

  /** Handling further batches handles the concatenation. */
  lemma HandleMore(t: Totals, done: seq<seq<Message>>, cut: seq<seq<Message>>)
    ensures AfterHandling(t, Concat(done + cut)) == AfterHandling(AfterHandling(t, Concat(done)), Concat(cut))
  {
    hide Concat, Processed, RecordsOf;
    ConcatAppend(done, cut);
    var a, b := Processed(Concat(done)), Processed(Concat(cut));
    ProcessedAppend(Concat(done), Concat(cut));
    RecordsOfAppend(a, b);
    assert t.history + (RecordsOf(a) + RecordsOf(b)) == (t.history + RecordsOf(a)) + RecordsOf(b);
    assert t.acked + (a + b) == (t.acked + a) + b;
  }

  lemma RecordsOfAppend(a: seq<Message>, b: seq<Message>)
    requires forall k :: 0 <= k < |a| ==> a[k].payload.Some?
    requires forall k :: 0 <= k < |b| ==> b[k].payload.Some?
    ensures RecordsOf(a + b) == RecordsOf(a) + RecordsOf(b)
  {
  }

  lemma RecordsOfSnoc(ms: seq<Message>, m: Message)
    requires m.payload.Some? && forall k :: 0 <= k < |ms| ==> ms[k].payload.Some?
    ensures RecordsOf(ms + [m]) == RecordsOf(ms) + [m.payload.value]
  {
  }

  /** The GPUs of `gpuMap` that are not in `todo` have been saved over `before`. */
  ghost predicate GpusSaved(before: map<string, Gpu>, gpuMap: map<string, Gpu>, todo: set<string>, gpus: map<string, Gpu>) {
    gpus == before + (gpuMap - todo)
  }

  lemma NoGpuSavedYet(before: map<string, Gpu>, gpuMap: map<string, Gpu>)
    ensures GpusSaved(before, gpuMap, gpuMap.Keys, before)
  {
    assert gpuMap - gpuMap.Keys == map[];
  }

  lemma GpusSavedOneMore(before: map<string, Gpu>, gpuMap: map<string, Gpu>, todo: set<string>, gpus: map<string, Gpu>, uuid: string)
    requires GpusSaved(before, gpuMap, todo, gpus) && uuid in todo && uuid in gpuMap
    ensures GpusSaved(before, gpuMap, todo - {uuid}, gpus[uuid := gpuMap[uuid]])
  {
  }

  lemma GpusSavedAll(before: map<string, Gpu>, gpuMap: map<string, Gpu>, gpus: map<string, Gpu>)
    requires GpusSaved(before, gpuMap, {}, gpus)
    ensures gpus == before + gpuMap
  {
    assert gpuMap - {} == gpuMap;
  }

  lemma MergedGpusAreNamed(batch: seq<Message>)
    ensures forall u :: u in MergeAll(batch) ==> u != "" && MergeAll(batch)[u].uuid == u
  {
    forall u | u in MergeAll(batch) ensures u != "" && MergeAll(batch)[u].uuid == u {
      OnlyMentionedAreMerged(batch, u);
    }
  }

  lemma RecordIsCovered(batch: seq<Message>, i: nat)
    requires i < |batch| && MessageOk(batch[i])
    ensures batch[i].payload.value.gpuUuid in MergeAll(batch)
  {
    assert Concerns(batch[i], batch[i].payload.value.gpuUuid);
    MergeKeepsFirstModel(batch, batch[i].payload.value.gpuUuid);
  }
}
