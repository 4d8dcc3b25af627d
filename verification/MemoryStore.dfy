/** The in-memory store of pkg/storage/memory/store.go: a telemetry list, a
    per-GPU position index and a GPU set that eviction rebuilds. */
module MemoryStore {
  import opened Domain
  import opened MemoryStoreSpec
  import Sorting

  /** What a store is asked to save. */
  datatype Write = GpuWrite(uuid: string) | RecordWrite(record: TelemetryRecord)

  function GpuWrites(uuids: seq<string>): seq<Write> {
    seq(|uuids|, k requires 0 <= k < |uuids| => GpuWrite(uuids[k]))
  }

  function RecordWrites(records: seq<TelemetryRecord>): seq<Write> {
    seq(|records|, k requires 0 <= k < |records| => RecordWrite(records[k]))
  }

  datatype StoreError = InvalidGpu | InvalidGpuUuid | InvalidTelemetryRecord

  function GpusByUuid(gpus: seq<Gpu>): (sorted: seq<Gpu>) {
    Sorting.Sort((a: Gpu, b: Gpu) => Sorting.StringLeq(a.uuid, b.uuid), gpus)
  }

  function RecordsByTime(rs: seq<TelemetryRecord>): (sorted: seq<TelemetryRecord>) {
    Sorting.Sort((a: TelemetryRecord, b: TelemetryRecord) => a.ingestionTime <= b.ingestionTime, rs)
  }

  lemma RecordsByTimeSorts(rs: seq<TelemetryRecord>)
    ensures TimeSorted(RecordsByTime(rs))
    ensures multiset(RecordsByTime(rs)) == multiset(rs)
  {
    Sorting.SortSorts((a: TelemetryRecord, b: TelemetryRecord) => a.ingestionTime <= b.ingestionTime, rs);
  }

  ghost predicate StrictlyAscending(gpus: seq<Gpu>) {
    forall i, j :: 0 <= i < j < |gpus| ==>
      Sorting.StringLeq(gpus[i].uuid, gpus[j].uuid) && gpus[i].uuid != gpus[j].uuid
  }

  ghost predicate DistinctUuids(gpus: seq<Gpu>) {
    forall i, j :: 0 <= i < j < |gpus| ==> gpus[i].uuid != gpus[j].uuid
  }

  /** Sorting GPUs with distinct UUIDs puts them in strictly ascending order. */
  lemma GpusByUuidSorts(gpus: seq<Gpu>)
    requires DistinctUuids(gpus)
    ensures StrictlyAscending(GpusByUuid(gpus))
    ensures multiset(GpusByUuid(gpus)) == multiset(gpus)
  {
    var leq := (a: Gpu, b: Gpu) => Sorting.StringLeq(a.uuid, b.uuid);
    forall a, b ensures leq(a, b) || leq(b, a) { Sorting.StringLeqTotal(a.uuid, b.uuid); }
    forall a, b, c | leq(a, b) && leq(b, c) ensures leq(a, c) { Sorting.StringLeqTransitive(a.uuid, b.uuid, c.uuid); }
    Sorting.SortSorts(leq, gpus);
    DistinctSurvivesPermutation(gpus, GpusByUuid(gpus));
    var sorted := GpusByUuid(gpus);
    forall i, j | 0 <= i < j < |sorted|
      ensures Sorting.StringLeq(sorted[i].uuid, sorted[j].uuid)
    {
      assert leq(sorted[i], sorted[j]);
    }
  }

  lemma DistinctSurvivesPermutation(a: seq<Gpu>, b: seq<Gpu>)
    requires DistinctUuids(a) && multiset(a) == multiset(b)
    ensures DistinctUuids(b)
  {
    forall i, j | 0 <= i < j < |b| ensures b[i].uuid != b[j].uuid {
      if b[i].uuid == b[j].uuid {
        assert b[i] in multiset(a) && b[j] in multiset(a);
        assert b[i] == b[j];
        TwiceIn(b, i, j);
        OnceIn(a, b[i]);
      }
    }
  }

  lemma TwiceIn(s: seq<Gpu>, i: nat, j: nat)
    requires i < j < |s| && s[i] == s[j]
    ensures multiset(s)[s[i]] >= 2
  {
    assert s == s[..j] + s[j..];
    assert s[i] in s[..j] && s[i] in s[j..];
    assert multiset(s) == multiset(s[..j]) + multiset(s[j..]);
  }

  lemma {:induction false} OnceIn(s: seq<Gpu>, g: Gpu)
    requires DistinctUuids(s)
    ensures multiset(s)[g] <= 1
  {
    if s == [] {
    } else {
      assert s == [s[0]] + s[1..];
      OnceIn(s[1..], g);
      assert forall k :: 0 <= k < |s[1..]| ==> s[1..][k] != s[0];
    }
  }

  class Store {
    var gpus: map<string, Gpu>
    var telemetry: seq<TelemetryRecord>
    var gpuTelemetryIndex: map<string, seq<nat>>
    var gpusWithTelemetry: set<string>
    const maxRecords: int

    ghost var history: seq<TelemetryRecord>  // every record saved so far
    ghost var writes: seq<Write>             // everything saved so far, in order
    ghost var reindexed: nat                 // records re-indexed by all evictions so far

    ghost predicate Valid()
      reads this
    {
      && maxRecords >= 1
      && telemetry == Retained(maxRecords, history)
      && reindexed == ReindexCost(maxRecords, history)
      && IndexAgrees(telemetry, gpuTelemetryIndex)
      && gpusWithTelemetry == Uuids(telemetry)
      && (forall u :: u in gpus ==> u != "" && gpus[u].uuid == u)
    }

    constructor (max: int)
      ensures Valid() && history == [] && writes == [] && gpus == map[] && telemetry == []
      ensures maxRecords == if max <= 0 then 100_000 else max
    {
      gpus := map[];
      telemetry := [];
      gpuTelemetryIndex := map[];
      gpusWithTelemetry := {};
      maxRecords := if max <= 0 then MAX_TELEMETRY_RECORDS else max;
      history := [];
      writes := [];
      reindexed := 0;
    }

    method SaveGpu(gpu: Option<Gpu>) returns (err: Option<StoreError>)
      requires Valid()
      modifies this`gpus, this`writes
      ensures Valid()
      ensures err == if gpu.None? then Some(InvalidGpu)
                     else if gpu.value.uuid == "" then Some(InvalidGpuUuid) else None
      ensures gpus == if err.None? then old(gpus)[gpu.value.uuid := gpu.value] else old(gpus)
      ensures writes == old(writes) + if err.None? then [GpuWrite(gpu.value.uuid)] else []
    {
      if gpu.None? { return Some(InvalidGpu); }
      if gpu.value.uuid == "" { return Some(InvalidGpuUuid); }
      gpus := gpus[gpu.value.uuid := gpu.value];
      writes := writes + [GpuWrite(gpu.value.uuid)];
      err := None;
    }

    method SaveTelemetry(record: Option<TelemetryRecord>) returns (err: Option<StoreError>)
      requires Valid()
      modifies this
      ensures Valid() && gpus == old(gpus)
      ensures err == if record.None? then Some(InvalidTelemetryRecord)
                     else if record.value.gpuUuid == "" then Some(InvalidGpuUuid) else None
      ensures history == if err.None? then old(history) + [record.value] else old(history)
      ensures writes == old(writes) + if err.None? then [RecordWrite(record.value)] else []
      ensures var tenth := if maxRecords < 10 then 1 else maxRecords / 10;
              telemetry ==
              if err.Some? then old(telemetry)
              else if |old(telemetry)| < maxRecords then old(telemetry) + [record.value]
              else old(telemetry)[tenth..] + [record.value]
    {
      hide Retained, ReindexCost, IndexAgrees, Uuids;
      if record.None? { return Some(InvalidTelemetryRecord); }
      if record.value.gpuUuid == "" { return Some(InvalidGpuUuid); }
      RetainedSnoc(maxRecords, history, record.value);
      ReindexCostSnoc(maxRecords, history, record.value);
      RetainedFits(maxRecords, history);
      MakeRoom();
      hide DropOldest;
      AppendRecord(record.value);
      history := history + [record.value];
      writes := writes + [RecordWrite(record.value)];
      assert telemetry == Retained(maxRecords, history);
      err := None;
    }

    /** Evicts a tenth, but at least one, when the list has reached the limit. */
    method MakeRoom()
      requires IndexAgrees(telemetry, gpuTelemetryIndex) && gpusWithTelemetry == Uuids(telemetry)
      requires 1 <= maxRecords && |telemetry| <= maxRecords
      modifies this`telemetry, this`gpuTelemetryIndex, this`gpusWithTelemetry, this`reindexed
      ensures IndexAgrees(telemetry, gpuTelemetryIndex) && gpusWithTelemetry == Uuids(telemetry)
      ensures telemetry == if |old(telemetry)| >= maxRecords then DropOldest(old(telemetry), EvictCount(maxRecords)) else old(telemetry)
      ensures var tenth := if maxRecords < 10 then 1 else maxRecords / 10;
              telemetry == if |old(telemetry)| < maxRecords then old(telemetry) else old(telemetry)[tenth..]
      ensures reindexed == old(reindexed) + if |old(telemetry)| >= maxRecords then |telemetry| else 0
    {
      hide IndexAgrees, Uuids;
      if |telemetry| >= maxRecords {
        var evictCount := maxRecords / 10;
        if evictCount < 1 {
          evictCount := 1;
        }
        EvictOldestRecords(evictCount);
      }
    }

    /** Appends the record to the list and its position to the index. */
    method AppendRecord(record: TelemetryRecord)
      requires IndexAgrees(telemetry, gpuTelemetryIndex) && gpusWithTelemetry == Uuids(telemetry)
      modifies this`telemetry, this`gpuTelemetryIndex, this`gpusWithTelemetry
      ensures telemetry == old(telemetry) + [record]
      ensures IndexAgrees(telemetry, gpuTelemetryIndex) && gpusWithTelemetry == Uuids(telemetry)
    {
      hide IndexAgrees, Uuids, AddPosition;
      IndexAgreesSnoc(telemetry, gpuTelemetryIndex, record);
      UuidsSnoc(telemetry, record);
      var index := |telemetry|;
      telemetry := telemetry + [record];
      gpuTelemetryIndex := AddPosition(gpuTelemetryIndex, record.gpuUuid, index);
      gpusWithTelemetry := gpusWithTelemetry + {record.gpuUuid};
    }

    /** Drops the oldest `count` records and rebuilds index and GPU set. */
    method EvictOldestRecords(count: int)
      requires IndexAgrees(telemetry, gpuTelemetryIndex) && gpusWithTelemetry == Uuids(telemetry)
      modifies this`telemetry, this`gpuTelemetryIndex, this`gpusWithTelemetry, this`reindexed
      ensures telemetry == DropOldest(old(telemetry), count)
      ensures telemetry == if count <= 0 then old(telemetry)
                           else if count >= |old(telemetry)| then [] else old(telemetry)[count..]
      ensures IndexAgrees(telemetry, gpuTelemetryIndex) && gpusWithTelemetry == Uuids(telemetry)
      ensures reindexed == old(reindexed) + if count <= 0 || old(telemetry) == [] then 0 else |telemetry|
    {
      if count <= 0 || |telemetry| == 0 { return; }
      var dropped := if count > |telemetry| then |telemetry| else count;

      telemetry := telemetry[dropped..];
      assert telemetry == DropOldest(old(telemetry), count);
      RebuildIndex();
    }

    /** Rebuilds index and GPU set from the list, counting the records it visits. */
    method RebuildIndex()
      modifies this`gpuTelemetryIndex, this`gpusWithTelemetry, this`reindexed
      ensures IndexAgrees(telemetry, gpuTelemetryIndex) && gpusWithTelemetry == Uuids(telemetry)
      ensures reindexed == old(reindexed) + |telemetry|
    {
      hide Positions, IndexAgrees, Uuids, AddPosition;
      var newIndex: map<string, seq<nat>> := map[];
      var newGpusWithTelemetry: set<string> := {};
      EmptyIndexAgrees();
      var i := 0;
      while i < |telemetry|
        invariant 0 <= i <= |telemetry|
        invariant IndexAgrees(telemetry[..i], newIndex)
        invariant newGpusWithTelemetry == Uuids(telemetry[..i])
        invariant reindexed == old(reindexed) + i
      {
        var record := telemetry[i];
        IndexAgreesSnoc(telemetry[..i], newIndex, record);
        UuidsSnoc(telemetry[..i], record);
        assert telemetry[..i + 1] == telemetry[..i] + [record];
        newIndex := AddPosition(newIndex, record.gpuUuid, i);
        newGpusWithTelemetry := newGpusWithTelemetry + {record.gpuUuid};
        reindexed := reindexed + 1;
        i := i + 1;
      }
      assert telemetry[..i] == telemetry;
      gpuTelemetryIndex := newIndex;
      gpusWithTelemetry := newGpusWithTelemetry;
    }

    /** The indexed query: a time-sorted permutation of what the linear scan finds. */
    method GetTelemetryByGpu(gpuUuid: string, start: Option<int>, end: Option<int>)
      returns (r: Result<seq<TelemetryRecord>, StoreError>)
      requires Valid()
      ensures gpuUuid == "" ==> r == Err(InvalidGpuUuid)
      ensures gpuUuid != "" ==>
                r.Ok? && forall i, j :: 0 <= i < j < |r.value| ==> r.value[i].ingestionTime <= r.value[j].ingestionTime
      ensures gpuUuid != "" ==>
                multiset(r.value) == multiset(Scan(telemetry, TelemetryQuery(gpuUuid, start, end)))
      ensures gpuUuid != "" ==>
                forall c :: multiset(r.value)[c] ==
                  |set i: nat | i < |telemetry| && telemetry[i].gpuUuid == gpuUuid
                                && (start.Some? ==> start.value <= telemetry[i].ingestionTime)
                                && (end.Some? ==> telemetry[i].ingestionTime <= end.value)
                                && c == TelemetryRecord(telemetry[i].gpuUuid, telemetry[i].metricName, telemetry[i].value,
                                                        telemetry[i].ingestionTime, telemetry[i].container,
                                                        telemetry[i].pod, telemetry[i].ns, telemetry[i].hostname,
                                                        telemetry[i].modelName, "", "")|
    {
      if gpuUuid == "" { return Err(InvalidGpuUuid); }
      ghost var q := TelemetryQuery(gpuUuid, start, end);
      GatherIsScan(telemetry, q);
      PositionsInRange(telemetry, gpuUuid);
      hide Retained, ReindexCost, Positions, Uuids, Scan, RecordsByTime;

      if gpuUuid !in gpuTelemetryIndex || |gpuTelemetryIndex[gpuUuid]| == 0 {
        Answered(telemetry, q, []);
        return Ok([]);
      }
      var indices := gpuTelemetryIndex[gpuUuid];
      hide IndexAgrees, Gather;
      var results := CollectRecords(indices, start, end);
      RecordsByTimeSorts(results);
      Answered(telemetry, q, RecordsByTime(results));
      r := Ok(RecordsByTime(results));
    }

    /** The copies of the records at `indices` that the time filters let through. */
    method CollectRecords(indices: seq<nat>, start: Option<int>, end: Option<int>) returns (results: seq<TelemetryRecord>)
      requires InRange(indices, |telemetry|)
      ensures results == Gather(telemetry, indices, start, end)
    {
      results := [];
      assert results == Gather(telemetry, indices[..0], start, end);
      hide Gather;
      var i := 0;
      while i < |indices|
        invariant 0 <= i <= |indices|
        invariant results == Gather(telemetry, indices[..i], start, end)
      {
        var idx := indices[i];
        GatherNext(telemetry, indices, i, start, end);
        i := i + 1;
        if idx >= |telemetry| {
          assert false;  // the index never points past the list
        }
        var record := telemetry[idx];
        if start.Some? && record.ingestionTime < start.value { continue; }
        if end.Some? && record.ingestionTime > end.value { continue; }
        results := results + [QueryCopy(record)];
      }
      assert indices[..i] == indices;
    }

    /** The GPUs with retained telemetry that have been saved, strictly ascending by UUID. */
    method ListGpus() returns (listed: seq<Gpu>)
      requires Valid()
      ensures forall i, j :: 0 <= i < j < |listed| ==> !(listed[j].uuid <= listed[i].uuid)
      ensures forall i, j, k :: 0 <= i < j < |listed| && 0 <= k < |listed[i].uuid| && k < |listed[j].uuid|
                                && listed[i].uuid[..k] == listed[j].uuid[..k]
                                ==> listed[i].uuid[k] as int <= listed[j].uuid[k] as int
      ensures forall g :: g in listed <==>
                (exists i :: 0 <= i < |telemetry| && telemetry[i].gpuUuid == g.uuid)
                && g.uuid in gpus && gpus[g.uuid] == g
    {
      var found := GpusWithTelemetry();
      GpusByUuidSorts(found);
      listed := GpusByUuid(found);
      hide GpusByUuid, Retained, ReindexCost, IndexAgrees;
      assert forall g :: g in listed <==> g in multiset(listed);
      assert forall g :: g in found <==> g in multiset(found);
      AscendingMeans(listed);
    }

    /** The saved GPUs of the GPU set, each once, in whatever order. */
    method GpusWithTelemetry() returns (found: seq<Gpu>)
      requires Valid()
      ensures DistinctUuids(found)
      ensures forall g :: g in found <==>
                (exists i :: 0 <= i < |telemetry| && telemetry[i].gpuUuid == g.uuid)
                && g.uuid in gpus && gpus[g.uuid] == g
    {
      hide Retained, ReindexCost, IndexAgrees;
      var todo := gpusWithTelemetry;
      found := [];
      while todo != {}
        invariant todo <= gpusWithTelemetry
        invariant DistinctUuids(found)
        invariant forall g :: g in found <==>
                    g.uuid in gpusWithTelemetry - todo && g.uuid in gpus && gpus[g.uuid] == g
        decreases todo
      {
        var uuid :| uuid in todo;
        todo := todo - {uuid};
        if uuid in gpus {
          assert forall k :: 0 <= k < |found| ==> found[k] in found;
          found := found + [gpus[uuid]];
        }
      }
    }
  }

  /** Ascending by UUID, written out: nobody begins with a later UUID, and at the
      first difference the earlier one has the smaller code point. */
  lemma AscendingMeans(listed: seq<Gpu>)
    requires StrictlyAscending(listed)
    ensures forall i, j :: 0 <= i < j < |listed| ==> !(listed[j].uuid <= listed[i].uuid)
    ensures forall i, j, k :: 0 <= i < j < |listed| && 0 <= k < |listed[i].uuid| && k < |listed[j].uuid|
                              && listed[i].uuid[..k] == listed[j].uuid[..k]
                              ==> listed[i].uuid[k] as int <= listed[j].uuid[k] as int
  {
    forall i, j | 0 <= i < j < |listed|
      ensures !(listed[j].uuid <= listed[i].uuid)
      ensures forall k :: 0 <= k < |listed[i].uuid| && k < |listed[j].uuid| && listed[i].uuid[..k] == listed[j].uuid[..k]
                          ==> listed[i].uuid[k] as int <= listed[j].uuid[k] as int
    {
      Sorting.StringOrder(listed[i].uuid, listed[j].uuid);
    }
  }

  /** What a permutation of the scan holds, written out. */
  lemma Answered(tel: seq<TelemetryRecord>, q: TelemetryQuery, results: seq<TelemetryRecord>)
    requires multiset(results) == multiset(Scan(tel, q))
    ensures forall c :: multiset(results)[c] ==
              |set i: nat | i < |tel| && tel[i].gpuUuid == q.gpuUuid
                            && (q.startTime.Some? ==> q.startTime.value <= tel[i].ingestionTime)
                            && (q.endTime.Some? ==> tel[i].ingestionTime <= q.endTime.value)
                            && c == TelemetryRecord(tel[i].gpuUuid, tel[i].metricName, tel[i].value, tel[i].ingestionTime,
                                                    tel[i].container, tel[i].pod, tel[i].ns, tel[i].hostname,
                                                    tel[i].modelName, "", "")|
  {
    forall c { ScanAnswers(tel, q, c); }
  }
}
