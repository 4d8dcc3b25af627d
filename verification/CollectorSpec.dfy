/** What a collector of internal/collector/collector.go makes of the messages it
    receives: which batches it cuts, which GPU it keeps per UUID, which
    messages it saves. */
module CollectorSpec {
  import opened Sequences
  import opened Domain

  // ----------------------------------------------------------------- batches

  /** What the select of the receive loop can see. */
  datatype Event = Arrived(m: Message) | FlushTick | Cancelled | ChannelClosed {
    predicate Exits() { Cancelled? || ChannelClosed? }
  }

  ghost predicate Ends(events: seq<Event>) {
    exists i :: 0 <= i < |events| && events[i].Exits()
  }

  /** The messages received before the loop exits. */
  function Received(events: seq<Event>): seq<Message> {
    if events == [] || events[0].Exits() then []
    else (if events[0].Arrived? then [events[0].m] else []) + Received(events[1..])
  }

  function Full(buffer: seq<Message>, size: int): bool {
    |buffer| >= size
  }

  function FlushOf(buffer: seq<Message>): seq<seq<Message>> {
    if buffer == [] then [] else [buffer]
  }

  /** The batch one event cuts, if any: at the configured size, at a tick, and on
      exit; never an empty one. */
  function Cut(event: Event, buffer: seq<Message>, size: int): seq<seq<Message>> {
    match event
    case Arrived(m) => if Full(buffer + [m], size) then [buffer + [m]] else []
    case _ => FlushOf(buffer)
  }

  /** What stays buffered after it. */
  function Kept(event: Event, buffer: seq<Message>, size: int): seq<Message> {
    match event
    case Arrived(m) => if Full(buffer + [m], size) then [] else buffer + [m]
    case _ => []
  }

  /** The batches cut from `events`, starting with `buffer`, up to the exit. */
  function Batches(events: seq<Event>, buffer: seq<Message>, size: int): seq<seq<Message>>
    decreases |events|
  {
    if events == [] then []
    else Cut(events[0], buffer, size)
         + if events[0].Exits() then [] else Batches(events[1..], Kept(events[0], buffer, size), size)
  }

  /** What is still buffered when the events end without an exit. */
  function Leftover(events: seq<Event>, buffer: seq<Message>, size: int): seq<Message>
    decreases |events|
  {
    if events == [] then buffer
    else if events[0].Exits() then []
    else Leftover(events[1..], Kept(events[0], buffer, size), size)
  }

  function Concat(batches: seq<seq<Message>>): seq<Message> {
    if batches == [] then [] else batches[0] + Concat(batches[1..])
  }

  lemma {:induction false} ConcatAppend(a: seq<seq<Message>>, b: seq<seq<Message>>)
    ensures Concat(a + b) == Concat(a) + Concat(b)
  {
    if a == [] {
      assert a + b == b;
    } else {
      ConcatAppend(a[1..], b);
      assert (a + b)[1..] == a[1..] + b;
    }
  }

  lemma CutKeepsEverything(event: Event, buffer: seq<Message>, size: int)
    ensures Concat(Cut(event, buffer, size)) + Kept(event, buffer, size)
            == buffer + if event.Arrived? then [event.m] else []
  {
    assert Concat([]) == [];
    var cut := Cut(event, buffer, size);
    if cut != [] {
      assert cut[1..] == [];
      assert Concat(cut) == cut[0] + [] == cut[0];
    }
  }

  function MaxBatch(size: int): int {
    if size < 1 then 1 else size
  }

  /** Batching loses and reorders nothing: the batches, and what is still
      buffered, concatenate to what was in the buffer and what was received. */
  lemma {:induction false} BatchesKeepEverything(events: seq<Event>, buffer: seq<Message>, size: int)
    ensures Concat(Batches(events, buffer, size)) + Leftover(events, buffer, size) == buffer + Received(events)
    decreases |events|
  {
    if events == [] {
    } else {
      var cut, kept := Cut(events[0], buffer, size), Kept(events[0], buffer, size);
      CutKeepsEverything(events[0], buffer, size);
      if events[0].Exits() {
        assert cut + [] == cut;
      } else {
        var rest := Batches(events[1..], kept, size);
        BatchesKeepEverything(events[1..], kept, size);
        ConcatAppend(cut, rest);
        var left, received := Leftover(events[1..], kept, size), Received(events[1..]);
        var one := if events[0].Arrived? then [events[0].m] else [];
        assert Received(events) == one + received;
        Reassociate(Concat(cut), Concat(rest), left);
        Reassociate(Concat(cut), kept, received);
        Reassociate(buffer, one, received);
      }
    }
  }

  /** No batch is empty or larger than max(1, batch size). */
  lemma {:induction false} BatchesAreBounded(events: seq<Event>, buffer: seq<Message>, size: int)
    requires |buffer| < MaxBatch(size)
    ensures forall k :: 0 <= k < |Batches(events, buffer, size)| ==>
              1 <= |Batches(events, buffer, size)[k]| <= MaxBatch(size)
    ensures |Leftover(events, buffer, size)| < MaxBatch(size)
    decreases |events|
  {
    if events != [] && !events[0].Exits() {
      BatchesAreBounded(events[1..], Kept(events[0], buffer, size), size);
    }
  }

  /** When the loop exits nothing stays buffered. */
  lemma {:induction false} NothingLeftOnExit(events: seq<Event>, buffer: seq<Message>, size: int)
    requires Ends(events)
    ensures Leftover(events, buffer, size) == []
    decreases |events|
  {
    var i :| 0 <= i < |events| && events[i].Exits();
    if !events[0].Exits() {
      assert events[1..][i - 1].Exits();
      NothingLeftOnExit(events[1..], Kept(events[0], buffer, size), size);
    }
  }

  /** Hence, when the loop exits, the batches are exactly what was received. */
  lemma BatchesAreWhatWasReceived(events: seq<Event>, size: int)
    requires Ends(events)
    ensures Concat(Batches(events, [], size)) == Received(events)
  {
    BatchesKeepEverything(events, [], size);
    NothingLeftOnExit(events, [], size);
    var batches := Batches(events, [], size);
    assert Concat(batches) + [] == Concat(batches) && [] + Received(events) == Received(events);
  }

  /** All messages that arrive, in order. */
  function Arrivals(events: seq<Event>): seq<Message> {
    if events == [] then []
    else Arrivals(events[..|events| - 1]) + if events[|events| - 1].Arrived? then [events[|events| - 1].m] else []
  }

  lemma {:induction false} ReceivedAreArrivals(events: seq<Event>, i: nat)
    requires i < |events| && (events[i].Cancelled? || events[i].ChannelClosed?)
    requires forall j :: 0 <= j < i ==> events[j].Arrived? || events[j].FlushTick?
    ensures Received(events) == Arrivals(events[..i])
    decreases i
  {
    if i > 0 {
      ReceivedAreArrivals(events[1..], i - 1);
      assert events[1..][..i - 1] == events[..i][1..];
      ArrivalsHead(events[..i]);
    }
  }

  lemma {:induction false} ArrivalsHead(events: seq<Event>)
    requires events != []
    ensures Arrivals(events) == (if events[0].Arrived? then [events[0].m] else []) + Arrivals(events[1..])
    decreases |events|
  {
    var n := |events| - 1;
    if n == 0 {
      assert events[..0] == [] && events[1..] == [];
    } else {
      ArrivalsHead(events[..n]);
      assert events[..n][1..] == events[1..][..n - 1] && events[1..][n - 1] == events[n];
      Reassociate(if events[0].Arrived? then [events[0].m] else [], Arrivals(events[1..][..n - 1]),
                  if events[n].Arrived? then [events[n].m] else []);
    }
  }

  /** Written out: when the loop stops at event `i`, cancelled or with its channel
      closed, the batches are all messages that arrived before, in order. */
  lemma BatchesAreArrivals(events: seq<Event>, size: int, i: nat)
    requires i < |events| && (events[i].Cancelled? || events[i].ChannelClosed?)
    requires forall j :: 0 <= j < i ==> events[j].Arrived? || events[j].FlushTick?
    ensures Concat(Batches(events, [], size)) == Arrivals(events[..i]) && Leftover(events, [], size) == []
  {
    ReceivedAreArrivals(events, i);
    BatchesAreWhatWasReceived(events, size);
    NothingLeftOnExit(events, [], size);
  }

  // --------------------------------------------------------------- GPU merge

  function GpuOf(r: TelemetryRecord): Gpu {
    Gpu(r.gpuUuid, r.gpuId, r.device, r.modelName, r.hostname, r.container, r.pod, r.ns)
  }

  predicate Concerns(m: Message, uuid: string) {
    m.payload.Some? && m.payload.value.gpuUuid == uuid
  }

  /** Add the message's GPU if it is new, or if it is the first with a model. */
  function MergeGpu(gpus: map<string, Gpu>, m: Message): map<string, Gpu> {
    if m.payload.None? || m.payload.value.gpuUuid == "" then gpus
    else
      var gpu := GpuOf(m.payload.value);
      if gpu.uuid !in gpus || (gpu.model != "" && gpus[gpu.uuid].model == "") then gpus[gpu.uuid := gpu] else gpus
  }

  function MergeAll(batch: seq<Message>): map<string, Gpu> {
    if batch == [] then map[] else MergeGpu(MergeAll(batch[..|batch| - 1]), batch[|batch| - 1])
  }

  function ModelOf(m: Message): string
    requires m.payload.Some?
  {
    m.payload.value.modelName
  }

  /** Message `i` is the first about `uuid` with a model, or the first about it if none has one. */
  ghost predicate IsChoice(batch: seq<Message>, uuid: string, i: nat) {
    && i < |batch| && Concerns(batch[i], uuid)
    && (if ModelOf(batch[i]) != ""
        then forall j :: 0 <= j < i && Concerns(batch[j], uuid) ==> ModelOf(batch[j]) == ""
        else (forall j :: 0 <= j < i ==> !Concerns(batch[j], uuid))
             && (forall j :: 0 <= j < |batch| && Concerns(batch[j], uuid) ==> ModelOf(batch[j]) == ""))
  }

  ghost predicate Mentioned(batch: seq<Message>, uuid: string) {
    exists i :: 0 <= i < |batch| && Concerns(batch[i], uuid)
  }

  /** For every UUID the position of the message whose GPU the merge keeps. */
  lemma {:induction false} MergeChoice(batch: seq<Message>, uuid: string) returns (i: nat)
    requires uuid != "" && Mentioned(batch, uuid)
    ensures IsChoice(batch, uuid, i) && uuid in MergeAll(batch) && MergeAll(batch)[uuid] == GpuOf(batch[i].payload.value)
  {
    var n := |batch| - 1;
    var before, last := batch[..n], batch[n];
    if Mentioned(before, uuid) {
      i := MergeChoice(before, uuid);
      if Concerns(last, uuid) && ModelOf(last) != "" && ModelOf(before[i]) == "" {
        i := n;
      }
    } else {
      OnlyMentionedAreMerged(before, uuid);
      assert forall j :: 0 <= j < n ==> before[j] == batch[j];
      i := n;
    }
  }

  lemma {:induction false} OnlyMentionedAreMerged(batch: seq<Message>, uuid: string)
    ensures uuid in MergeAll(batch) ==> uuid != "" && Mentioned(batch, uuid) && MergeAll(batch)[uuid].uuid == uuid
  {
    if batch == [] {
    } else {
      var n := |batch| - 1;
      OnlyMentionedAreMerged(batch[..n], uuid);
      if uuid in MergeAll(batch) {
        if uuid in MergeAll(batch[..n]) {
          var i :| 0 <= i < n && Concerns(batch[..n][i], uuid);
          assert Concerns(batch[i], uuid);
        } else {
          assert Concerns(batch[n], uuid);
        }
      }
    }
  }

  /** GPU merge: the map holds exactly the non-empty UUIDs of the batch, each with
      the GPU of the first message with a non-empty model, or of the first message
      if none has one. */
  lemma MergeKeepsFirstModel(batch: seq<Message>, uuid: string)
    ensures uuid in MergeAll(batch) <==> uuid != "" && Mentioned(batch, uuid)
    ensures uuid in MergeAll(batch) ==>
              exists i: nat :: IsChoice(batch, uuid, i) && MergeAll(batch)[uuid] == GpuOf(batch[i].payload.value)
  {
    OnlyMentionedAreMerged(batch, uuid);
    if uuid != "" && Mentioned(batch, uuid) {
      var i := MergeChoice(batch, uuid);
    }
  }

  /** The GPU kept for a UUID, written out: every field from the first message of the
      batch about it that has a model, or from the first message if none has one. */
  lemma MergedGpuIs(batch: seq<Message>, i: nat)
    requires i < |batch| && batch[i].payload.Some? && batch[i].payload.value.gpuUuid != ""
    requires var p := batch[i].payload.value;
             if p.modelName != ""
             then forall j :: 0 <= j < i && batch[j].payload.Some? && batch[j].payload.value.gpuUuid == p.gpuUuid
                              ==> batch[j].payload.value.modelName == ""
             else forall j :: 0 <= j < |batch| && batch[j].payload.Some? && batch[j].payload.value.gpuUuid == p.gpuUuid
                              ==> i <= j && batch[j].payload.value.modelName == ""
    ensures var p := batch[i].payload.value;
            && p.gpuUuid in MergeAll(batch)
            && MergeAll(batch)[p.gpuUuid] ==
               Gpu(p.gpuUuid, p.gpuId, p.device, p.modelName, p.hostname, p.container, p.pod, p.ns)
  {
    var uuid := batch[i].payload.value.gpuUuid;
    assert Concerns(batch[i], uuid);
    var j := MergeChoice(batch, uuid);
    assert IsChoice(batch, uuid, i);
    ChoiceIsUnique(batch, uuid, i, j);
  }

  /** Which UUIDs the merge holds, written out. */
  lemma MergedUuidsAre(batch: seq<Message>, uuid: string)
    ensures uuid in MergeAll(batch) <==>
            uuid != "" && exists i :: 0 <= i < |batch| && batch[i].payload.Some? && batch[i].payload.value.gpuUuid == uuid
  {
    MergeKeepsFirstModel(batch, uuid);
    if i :| 0 <= i < |batch| && batch[i].payload.Some? && batch[i].payload.value.gpuUuid == uuid {
      assert Concerns(batch[i], uuid);
    }
    if Mentioned(batch, uuid) {
      var i :| 0 <= i < |batch| && Concerns(batch[i], uuid);
    }
  }

  /** The choice is unique, so the merge is determined. */
  lemma ChoiceIsUnique(batch: seq<Message>, uuid: string, i: nat, j: nat)
    requires IsChoice(batch, uuid, i) && IsChoice(batch, uuid, j)
    ensures i == j
  {
  }

  /** Merging a message of the batch once more changes nothing. */
  lemma SecondPassChangesNothing(batch: seq<Message>, k: nat)
    requires k < |batch|
    ensures MergeGpu(MergeAll(batch), batch[k]) == MergeAll(batch)
  {
    if batch[k].payload.Some? && batch[k].payload.value.gpuUuid != "" {
      var uuid := batch[k].payload.value.gpuUuid;
      assert Concerns(batch[k], uuid);
      var i := MergeChoice(batch, uuid);
    }
  }

  // ------------------------------------------------------- what gets saved

  predicate RecordOk(r: TelemetryRecord) {
    r.gpuUuid != "" && r.metricName != "" && r.ingestionTime != 0
  }

  predicate MessageOk(m: Message) {
    m.payload.Some? && RecordOk(m.payload.value)
  }

  /** The messages of a batch that are saved and acknowledged, in order. */
  function Processed(batch: seq<Message>): (ms: seq<Message>)
    ensures forall k :: 0 <= k < |ms| ==> MessageOk(ms[k])
  {
    if batch == [] then []
    else Processed(batch[..|batch| - 1]) + if MessageOk(batch[|batch| - 1]) then [batch[|batch| - 1]] else []
  }

  /** Those messages, written out: with a payload that has a GPU UUID, a metric name
      and an ingestion time, in the order of the batch. */
  lemma {:induction false} ProcessedAre(batch: seq<Message>) returns (kept: seq<nat>)
    ensures forall x, y :: 0 <= x < y < |kept| ==> kept[x] < kept[y]
    ensures forall i: nat :: i in kept <==>
              i < |batch| && batch[i].payload.Some? && batch[i].payload.value.gpuUuid != ""
              && batch[i].payload.value.metricName != "" && batch[i].payload.value.ingestionTime != 0
    ensures |Processed(batch)| == |kept|
    ensures forall k :: 0 <= k < |kept| ==> kept[k] < |batch| && Processed(batch)[k] == batch[kept[k]]
  {
    if batch == [] {
      kept := [];
    } else {
      var n := |batch| - 1;
      var before := ProcessedAre(batch[..n]);
      kept := before + if MessageOk(batch[n]) then [n] else [];
      assert forall i :: 0 <= i < n ==> batch[..n][i] == batch[i];
      assert forall x :: 0 <= x < |before| ==> before[x] in before;
      assert forall i: nat :: i in kept <==> i in before || (i == n && MessageOk(batch[n]));
    }
  }

  lemma {:induction false} ProcessedAppend(a: seq<Message>, b: seq<Message>)
    ensures Processed(a + b) == Processed(a) + Processed(b)
  {
    if b == [] {
      assert a + b == a;
    } else {
      var n := |b| - 1;
      ProcessedAppend(a, b[..n]);
      assert (a + b)[..|a| + n] == a + b[..n];
    }
  }

  function RecordsOf(ms: seq<Message>): seq<TelemetryRecord>
    requires forall k :: 0 <= k < |ms| ==> ms[k].payload.Some?
  {
    seq(|ms|, k requires 0 <= k < |ms| => ms[k].payload.value)
  }
}
