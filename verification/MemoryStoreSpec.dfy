/** What the in-memory store of pkg/storage/memory keeps and answers, stated on
    plain lists: the retained records as a function of the save history, and
    the query as a linear scan. */
module MemoryStoreSpec {
  import opened DivMod
  import opened Domain

  const MAX_TELEMETRY_RECORDS := 100000

  /** How many records one eviction drops: a tenth, but at least one. */
  function EvictCount(m: nat): nat {
    if m / 10 < 1 then 1 else m / 10
  }

  function DropOldest(tel: seq<TelemetryRecord>, count: int): seq<TelemetryRecord> {
    if count <= 0 || tel == [] then tel
    else if count > |tel| then []
    else tel[count..]
  }

  function SaveStep(m: nat, tel: seq<TelemetryRecord>, record: TelemetryRecord): seq<TelemetryRecord> {
    (if |tel| >= m then DropOldest(tel, EvictCount(m)) else tel) + [record]
  }

  /** The telemetry list after saving all of `history`, oldest first, from empty. */
  function Retained(m: nat, history: seq<TelemetryRecord>): seq<TelemetryRecord> {
    if history == [] then []
    else SaveStep(m, Retained(m, history[..|history| - 1]), history[|history| - 1])
  }

  lemma RetainedSnoc(m: nat, history: seq<TelemetryRecord>, record: TelemetryRecord)
    ensures Retained(m, history + [record]) == SaveStep(m, Retained(m, history), record)
  {
    assert (history + [record])[..|history|] == history;
  }

  /** The closed form of how many records are retained after `n` saves. */
  function RetainedLength(m: nat, n: nat): int
    requires 1 <= m
  {
    if n <= m then n else m - EvictCount(m) + 1 + (n - m - 1) % EvictCount(m)
  }

  /** One more save lengthens the list by one, or restarts the cycle of e lengths. */
  lemma RetainedLengthStep(m: nat, n: nat)
    requires 1 <= m
    ensures 0 <= RetainedLength(m, n) <= m && RetainedLength(m, n) <= n
    ensures RetainedLength(m, n + 1) ==
            if RetainedLength(m, n) == m then m - EvictCount(m) + 1 else RetainedLength(m, n) + 1
  {
    if n > m { DivModStep(n - m - 1, EvictCount(m)); }
  }

  lemma RetainedSuffixStep(m: nat, history: seq<TelemetryRecord>, len: nat, len': nat)
    requires 1 <= m && 1 <= |history| && len == RetainedLength(m, |history| - 1) && len' == RetainedLength(m, |history|)
    requires len < |history| && Retained(m, history[..|history| - 1]) == history[..|history| - 1][|history| - 1 - len..]
    ensures len' <= |history| && Retained(m, history) == history[|history| - len'..]
  {
    RetainedLengthStep(m, |history| - 1);
    SaveStepOnSuffix(m, history, len);
  }

  lemma SaveStepOnSuffix(m: nat, history: seq<TelemetryRecord>, len: nat)
    requires 1 <= m && 1 <= |history| && len < |history| && len <= m
    ensures var n := |history|;
            var tel := history[..n - 1][n - 1 - len..];
            var len' := if len == m then m - EvictCount(m) + 1 else len + 1;
            SaveStep(m, tel, history[n - 1]) == history[n - len'..]
  {
    var n := |history|;
    var tel := history[..n - 1][n - 1 - len..];
    if len == m {
      SuffixSnoc(history, len, EvictCount(m));
      assert DropOldest(tel, EvictCount(m)) == tel[EvictCount(m)..];
    } else {
      SuffixSnoc(history, len, 0);
      assert tel[0..] == tel;
    }
  }

  lemma SuffixSnoc(history: seq<TelemetryRecord>, len: nat, drop: nat)
    requires 1 <= |history| && drop <= len < |history|
    ensures var n := |history|;
            history[..n - 1][n - 1 - len..][drop..] + [history[n - 1]] == history[n - 1 - len + drop..]
  {
  }

  /** Exact retention: the list is always a suffix of the save history, of
      exactly the closed-form length, and the limit is never exceeded. */
  lemma {:induction false} RetainedIsSuffix(m: nat, history: seq<TelemetryRecord>)
    requires 1 <= m
    ensures 0 <= RetainedLength(m, |history|) <= m && RetainedLength(m, |history|) <= |history|
    ensures Retained(m, history) == history[|history| - RetainedLength(m, |history|)..]
  {
    RetainedLengthStep(m, |history|);
    if history == [] {
    } else {
      RetainedIsSuffix(m, history[..|history| - 1]);
      RetainedSuffixStep(m, history, RetainedLength(m, |history| - 1), RetainedLength(m, |history|));
    }
  }

  lemma RetainedFits(m: nat, history: seq<TelemetryRecord>)
    requires 1 <= m
    ensures |Retained(m, history)| <= m
  {
    RetainedIsSuffix(m, history);
  }

  /** The eviction count is a tenth of the limit, rounded down, but at least one. */
  lemma EvictCountIsTenth(m: nat, e: nat)
    requires e >= 1 && (m < 10 ==> e == 1) && (m >= 10 ==> 10 * e <= m < 10 * e + 10)
    ensures EvictCount(m) == e
  {
  }

  /** Exact retention.  With `e` a tenth of the limit m, rounded down, but at least
      one: after n saves the list is the suffix of the save history of length n as
      long as that is at most m, and of length m - e + 1 + (n - m - 1) mod e after. */
  lemma ExactRetention(m: nat, e: nat, history: seq<TelemetryRecord>)
    requires 1 <= m && e >= 1 && (m < 10 ==> e == 1) && (m >= 10 ==> 10 * e <= m < 10 * e + 10)
    ensures var n := |history|;
            var length := if n <= m then n else m - e + 1 + (n - m - 1) % e;
            0 <= length <= m && length <= n && Retained(m, history) == history[n - length..]
  {
    EvictCountIsTenth(m, e);
    RetainedIsSuffix(m, history);
  }

  /** Hence the newest min(n, m - e + 1) records are always kept. */
  lemma NewestAreKept(m: nat, e: nat, history: seq<TelemetryRecord>, i: nat)
    requires e >= 1 && (m < 10 ==> e == 1) && (m >= 10 ==> 10 * e <= m < 10 * e + 10)
    requires i < |history| && |history| - i <= m - e + 1
    ensures history[i] in Retained(m, history)
  {
    ExactRetention(m, e, history);
    var n := |history|;
    var start := n - if n <= m then n else m - e + 1 + (n - m - 1) % e;
    assert history[start..][i - start] == history[i];
  }

  /** How many records the evictions of a whole save history put back into the index. */
  function ReindexCost(m: nat, history: seq<TelemetryRecord>): nat {
    if history == [] then 0
    else
      var before := history[..|history| - 1];
      var tel := Retained(m, before);
      ReindexCost(m, before) + if |tel| >= m then |DropOldest(tel, EvictCount(m))| else 0
  }

  lemma ReindexCostSnoc(m: nat, history: seq<TelemetryRecord>, record: TelemetryRecord)
    ensures ReindexCost(m, history + [record]) ==
            ReindexCost(m, history)
            + if |Retained(m, history)| >= m then |DropOldest(Retained(m, history), EvictCount(m))| else 0
  {
    assert (history + [record])[..|history|] == history;
  }

  /** The closed form of that cost after `n` saves. */
  function ReindexTotal(m: nat, n: nat): int
    requires 1 <= m
  {
    if n <= m then 0 else (m - EvictCount(m)) * (1 + (n - m - 1) / EvictCount(m))
  }

  lemma ReindexTotalStep(m: nat, n: nat)
    requires 1 <= m
    ensures ReindexTotal(m, n + 1) ==
            ReindexTotal(m, n) + if RetainedLength(m, n) == m then m - EvictCount(m) else 0
  {
    var e := EvictCount(m);
    if n > m {
      var k := (n - m - 1) / e;
      DivModStep(n - m - 1, e);
      assert (m - e) * (1 + (k + 1)) == (m - e) * (1 + k) + (m - e);
    }
  }

  /** Every eviction re-indexes m - e records, and they come e saves apart. */
  lemma {:induction false} ReindexCostIsExact(m: nat, history: seq<TelemetryRecord>)
    requires 1 <= m
    ensures ReindexCost(m, history) == ReindexTotal(m, |history|)
  {
    if history == [] {
    } else {
      var before := history[..|history| - 1];
      ReindexCostIsExact(m, before);
      RetainedIsSuffix(m, before);
      ReindexTotalStep(m, |before|);
    }
  }

  /** Exact cost, with `e` a tenth of the limit: evictions come e saves apart once the
      limit is reached, and each puts m - e records back into the index. */
  lemma ExactReindexing(m: nat, e: nat, history: seq<TelemetryRecord>)
    requires 1 <= m && e >= 1 && (m < 10 ==> e == 1) && (m >= 10 ==> 10 * e <= m < 10 * e + 10)
    ensures var n := |history|;
            ReindexCost(m, history) == if n <= m then 0 else (m - e) * (1 + (n - m - 1) / e)
  {
    EvictCountIsTenth(m, e);
    ReindexCostIsExact(m, history);
  }

  lemma AmortisedArithmetic(m: nat, e: nat, x: nat)
    requires 1 <= e <= m && m - e <= 18 * e
    ensures (m - e) * (1 + x / e) <= 18 * (e + x)
  {
    var q := x / e;
    assert x == q * e + x % e;
    MulMonotone(m - e, 18 * e, 1 + q);
    assert (18 * e) * (1 + q) == 18 * (e + q * e);
  }

  /** Amortised cost: eviction re-indexes at most 18 records per save, over any
      whole history and for every limit. */
  lemma ReindexIsAmortised(m: nat, history: seq<TelemetryRecord>)
    requires 1 <= m
    ensures ReindexCost(m, history) <= 18 * |history|
  {
    ReindexCostIsExact(m, history);
    if |history| > m {
      AmortisedArithmetic(m, EvictCount(m), |history| - m - 1);
    }
  }

  /** ... and 18 is the best such constant: with limit 19, 400 saves cost more than 17 each. */
  lemma AmortisedBoundIsTight(history: seq<TelemetryRecord>)
    requires |history| == 400
    ensures ReindexCost(19, history) > 17 * |history|
  {
    ReindexCostIsExact(19, history);
  }

  // ------------------------------------------------------------------ index

  /** The positions at which `uuid` occurs, ascending. */
  function Positions(tel: seq<TelemetryRecord>, uuid: string): seq<nat> {
    if tel == [] then []
    else
      var n := |tel| - 1;
      Positions(tel[..n], uuid) + if tel[n].gpuUuid == uuid then [n] else []
  }

  ghost function Uuids(tel: seq<TelemetryRecord>): set<string> {
    set i | 0 <= i < |tel| :: tel[i].gpuUuid
  }

  /** The index lists, for exactly the UUIDs in the list, exactly their positions. */
  ghost predicate IndexAgrees(tel: seq<TelemetryRecord>, index: map<string, seq<nat>>) {
    && index.Keys == Uuids(tel)
    && (forall u :: u in index ==> index[u] == Positions(tel, u))
  }

  ghost predicate InRange(positions: seq<nat>, n: nat) {
    forall k :: 0 <= k < |positions| ==> positions[k] < n
  }

  lemma {:induction false} PositionsInRange(tel: seq<TelemetryRecord>, uuid: string)
    ensures InRange(Positions(tel, uuid), |tel|)
    ensures Positions(tel, uuid) == [] <==> uuid !in Uuids(tel)
  {
    if tel == [] {
    } else {
      var n := |tel| - 1;
      PositionsInRange(tel[..n], uuid);
      assert Uuids(tel) == Uuids(tel[..n]) + {tel[n].gpuUuid} by { UuidsSnoc(tel[..n], tel[n]); assert tel == tel[..n] + [tel[n]]; }
    }
  }

  lemma UuidsSnoc(tel: seq<TelemetryRecord>, record: TelemetryRecord)
    ensures Uuids(tel + [record]) == Uuids(tel) + {record.gpuUuid}
  {
    forall u ensures u in Uuids(tel + [record]) <==> u in Uuids(tel) + {record.gpuUuid} {
      if u in Uuids(tel) {
        var i :| 0 <= i < |tel| && tel[i].gpuUuid == u;
        assert (tel + [record])[i].gpuUuid == u;
      }
      if u == record.gpuUuid { assert (tel + [record])[|tel|].gpuUuid == u; }
    }
  }

  lemma EmptyIndexAgrees()
    ensures IndexAgrees([], map[]) && Uuids([]) == {}
  {
  }

  /** The positions of a UUID, written out: ascending, and exactly where it occurs. */
  lemma {:induction false} PositionsAreExact(tel: seq<TelemetryRecord>, uuid: string)
    ensures var ps := Positions(tel, uuid);
            && (forall x, y :: 0 <= x < y < |ps| ==> ps[x] < ps[y])
            && (forall i: nat :: i in ps <==> i < |tel| && tel[i].gpuUuid == uuid)
  {
    if tel != [] {
      var n := |tel| - 1;
      PositionsAreExact(tel[..n], uuid);
      var ps, before := Positions(tel, uuid), Positions(tel[..n], uuid);
      assert forall i: nat :: i < n ==> tel[..n][i] == tel[i];
      assert forall x :: 0 <= x < |before| ==> before[x] in before;
    }
  }

  /** Appending a record and its position keeps list and index in agreement. */
  lemma IndexAgreesSnoc(tel: seq<TelemetryRecord>, index: map<string, seq<nat>>, record: TelemetryRecord)
    requires IndexAgrees(tel, index)
    ensures IndexAgrees(tel + [record], AddPosition(index, record.gpuUuid, |tel|))
  {
    UuidsSnoc(tel, record);
    var tel' := tel + [record];
    var index' := AddPosition(index, record.gpuUuid, |tel|);
    assert tel'[..|tel|] == tel;
    PositionsInRange(tel, record.gpuUuid);
    forall u | u in index' ensures index'[u] == Positions(tel', u) { }
  }

  /** Go's `index[u] = append(index[u], position)`: a missing key reads as empty. */
  function AddPosition(index: map<string, seq<nat>>, uuid: string, position: nat): map<string, seq<nat>> {
    index[uuid := (if uuid in index then index[uuid] else []) + [position]]
  }

  // ------------------------------------------------------------------ query

  /** The nine fields a query copies; GPU index and device are left empty. */
  function QueryCopy(r: TelemetryRecord): TelemetryRecord {
    r.(gpuId := "", device := "")
  }

  /** The simple specification: copy every retained record the query matches. */
  function Scan(tel: seq<TelemetryRecord>, q: TelemetryQuery): seq<TelemetryRecord> {
    if tel == [] then []
    else
      var n := |tel| - 1;
      Scan(tel[..n], q) + if q.Matches(tel[n]) then [QueryCopy(tel[n])] else []
  }

  /** The retained positions whose record matches and copies to `c`. */
  ghost function MatchingPositions(tel: seq<TelemetryRecord>, q: TelemetryQuery, c: TelemetryRecord): set<nat> {
    set i: nat | i < |tel| && q.Matches(tel[i]) && QueryCopy(tel[i]) == c
  }

  lemma MatchingPositionsSnoc(tel: seq<TelemetryRecord>, r: TelemetryRecord, q: TelemetryQuery, c: TelemetryRecord)
    ensures MatchingPositions(tel + [r], q, c) ==
            MatchingPositions(tel, q, c) + if q.Matches(r) && QueryCopy(r) == c then {|tel|} else {}
  {
  }

  /** Content of the scan: each copy occurs once per matching retained position. */
  lemma {:induction false} ScanCounts(tel: seq<TelemetryRecord>, q: TelemetryQuery, c: TelemetryRecord)
    ensures multiset(Scan(tel, q))[c] == |MatchingPositions(tel, q, c)|
  {
    if tel == [] {
    } else {
      var n := |tel| - 1;
      var r := tel[n];
      ScanCounts(tel[..n], q, c);
      MatchingPositionsSnoc(tel[..n], r, q, c);
      assert tel == tel[..n] + [r];
      assert n !in MatchingPositions(tel[..n], q, c);
      hide MatchingPositions;
      var last := if q.Matches(r) then [QueryCopy(r)] else [];
      assert Scan(tel, q) == Scan(tel[..n], q) + last;
      assert multiset(last)[c] == if q.Matches(r) && QueryCopy(r) == c then 1 else 0;
    }
  }

  /** Content of the scan, written out: each copy, field by field and without GPU
      index and device, occurs once per retained record of the GPU in the window. */
  lemma ScanAnswers(tel: seq<TelemetryRecord>, q: TelemetryQuery, c: TelemetryRecord)
    ensures multiset(Scan(tel, q))[c] ==
            |set i: nat | i < |tel| && tel[i].gpuUuid == q.gpuUuid
                          && (q.startTime.Some? ==> q.startTime.value <= tel[i].ingestionTime)
                          && (q.endTime.Some? ==> tel[i].ingestionTime <= q.endTime.value)
                          && c == TelemetryRecord(tel[i].gpuUuid, tel[i].metricName, tel[i].value, tel[i].ingestionTime,
                                                  tel[i].container, tel[i].pod, tel[i].ns, tel[i].hostname,
                                                  tel[i].modelName, "", "")|
  {
    ScanCounts(tel, q, c);
    assert MatchingPositions(tel, q, c) ==
           (set i: nat | i < |tel| && tel[i].gpuUuid == q.gpuUuid
                         && (q.startTime.Some? ==> q.startTime.value <= tel[i].ingestionTime)
                         && (q.endTime.Some? ==> tel[i].ingestionTime <= q.endTime.value)
                         && c == TelemetryRecord(tel[i].gpuUuid, tel[i].metricName, tel[i].value, tel[i].ingestionTime,
                                                 tel[i].container, tel[i].pod, tel[i].ns, tel[i].hostname,
                                                 tel[i].modelName, "", ""));
  }

  /** What `Validate` accepts: queries that name a GPU and that some record could match. */
  lemma ValidMeansSatisfiable(q: TelemetryQuery)
    ensures q.Validate().None? <==> q.gpuUuid != "" && exists r :: q.Matches(r)
    ensures q.gpuUuid == "" <==> q.Validate() == Some(MissingGpuUuid)
  {
    var t := if q.startTime.Some? then q.startTime.value else if q.endTime.Some? then q.endTime.value else 0;
    var r := TelemetryRecord(q.gpuUuid, "", "", t, "", "", "", "", "", "", "");
    if !(q.startTime.Some? && q.endTime.Some? && q.startTime.value > q.endTime.value) { assert q.Matches(r); }
  }

  /** Whether the query loop's two time filters let a record through. */
  predicate InWindow(r: TelemetryRecord, start: Option<int>, end: Option<int>) {
    && !(start.Some? && r.ingestionTime < start.value)
    && !(end.Some? && r.ingestionTime > end.value)
  }

  /** What the query loop gathers from a list of positions. */
  function Gather(tel: seq<TelemetryRecord>, positions: seq<nat>, start: Option<int>, end: Option<int>): seq<TelemetryRecord>
    requires InRange(positions, |tel|)
  {
    if positions == [] then []
    else
      var n := |positions| - 1;
      var r := tel[positions[n]];
      Gather(tel, positions[..n], start, end) + if InWindow(r, start, end) then [QueryCopy(r)] else []
  }

  lemma GatherNext(tel: seq<TelemetryRecord>, positions: seq<nat>, i: nat, start: Option<int>, end: Option<int>)
    requires InRange(positions, |tel|) && i < |positions|
    ensures var r := tel[positions[i]];
            Gather(tel, positions[..i + 1], start, end) ==
            Gather(tel, positions[..i], start, end) + if InWindow(r, start, end) then [QueryCopy(r)] else []
  {
    assert positions[..i + 1][..i] == positions[..i];
  }

  lemma {:induction false} GatherPrefix(tel: seq<TelemetryRecord>, more: TelemetryRecord, positions: seq<nat>, start: Option<int>, end: Option<int>)
    requires InRange(positions, |tel|)
    ensures Gather(tel + [more], positions, start, end) == Gather(tel, positions, start, end)
  {
    if positions == [] {
    } else {
      GatherPrefix(tel, more, positions[..|positions| - 1], start, end);
    }
  }

  /** Following the index gives exactly what scanning the whole list gives. */
  lemma {:induction false} GatherIsScan(tel: seq<TelemetryRecord>, q: TelemetryQuery)
    ensures InRange(Positions(tel, q.gpuUuid), |tel|)
    ensures Gather(tel, Positions(tel, q.gpuUuid), q.startTime, q.endTime) == Scan(tel, q)
  {
    PositionsInRange(tel, q.gpuUuid);
    if tel == [] {
    } else {
      var n := |tel| - 1;
      var before := tel[..n];
      var ps := Positions(before, q.gpuUuid);
      GatherIsScan(before, q);
      GatherPrefix(before, tel[n], ps, q.startTime, q.endTime);
      assert tel == before + [tel[n]];
      if tel[n].gpuUuid == q.gpuUuid {
        assert Positions(tel, q.gpuUuid) == ps + [n];
        assert (ps + [n])[..|ps|] == ps;
        assert InWindow(tel[n], q.startTime, q.endTime) <==> q.Matches(tel[n]);
      } else {
        assert Positions(tel, q.gpuUuid) == ps + [] == ps;
      }
    }
  }

  /** A query whose window is empty finds nothing, as `Validate` warns. */
  lemma {:induction false} InvalidRangeFindsNothing(tel: seq<TelemetryRecord>, q: TelemetryQuery)
    requires q.Validate() == Some(InvalidTimeRange)
    ensures Scan(tel, q) == []
  {
    if tel == [] {
    } else {
      InvalidRangeFindsNothing(tel[..|tel| - 1], q);
    }
  }

  ghost predicate TimeSorted(rs: seq<TelemetryRecord>) {
    forall i, j :: 0 <= i < j < |rs| ==> rs[i].ingestionTime <= rs[j].ingestionTime
  }

  // ---------------------------------------------------------- composite keys

  predicate SameKey(a: TelemetryRecord, b: TelemetryRecord) {
    a.gpuUuid == b.gpuUuid && a.metricName == b.metricName && a.ingestionTime == b.ingestionTime
  }

  ghost predicate KeysAreUnique(tel: seq<TelemetryRecord>) {
    forall i, j :: 0 <= i < j < |tel| ==> !SameKey(tel[i], tel[j])
  }

  /** Where in the save history the retained records begin after `n` saves. */
  function FirstRetained(m: nat, n: nat): int
    requires 1 <= m
  {
    n - RetainedLength(m, n)
  }

  /** Eviction only moves forward. */
  lemma {:induction false} FirstRetainedGrows(m: nat, n: nat, n': nat)
    requires 1 <= m && n <= n'
    ensures FirstRetained(m, n) <= FirstRetained(m, n')
    decreases n'
  {
    if n < n' {
      FirstRetainedGrows(m, n, n' - 1);
      RetainedLengthStep(m, n' - 1);
    }
  }

  lemma RetainedAt(m: nat, history: seq<TelemetryRecord>, n: nat, i: nat)
    requires 1 <= m && FirstRetained(m, n) <= i < n <= |history|
    ensures 0 <= i - FirstRetained(m, n) < |Retained(m, history[..n])|
    ensures Retained(m, history[..n])[i - FirstRetained(m, n)] == history[i]
  {
    RetainedIsSuffix(m, history[..n]);
  }

  /** No save of the history repeats a key that is still retained. */
  ghost predicate NoKeyRepeatedWhileRetained(m: nat, history: seq<TelemetryRecord>)
    requires 1 <= m
  {
    forall i: nat, j: nat :: i < j < |history| && SameKey(history[i], history[j]) ==> i < FirstRetained(m, j + 1)
  }

  /** The store does not enforce the composite key.  Keys are unique among the
      retained records, all through a history of saves, exactly if whenever a key
      is saved again its earlier save lies before the closed-form start of what is
      then retained. */
  lemma KeysStayUniqueIff(m: nat, history: seq<TelemetryRecord>)
    requires 1 <= m
    ensures (forall n :: 0 <= n <= |history| ==> KeysAreUnique(Retained(m, history[..n])))
            <==> NoKeyRepeatedWhileRetained(m, history)
  {
    hide Retained, RetainedLength, FirstRetained;
    if NoKeyRepeatedWhileRetained(m, history) {
      forall n | 0 <= n <= |history| ensures KeysAreUnique(Retained(m, history[..n])) {
        UniqueAt(m, history, n);
      }
    } else {
      var i: nat, j: nat :| i < j < |history| && SameKey(history[i], history[j]) && !(i < FirstRetained(m, j + 1));
      RetainedAt(m, history, j + 1, i);
      RetainedAt(m, history, j + 1, j);
      assert !KeysAreUnique(Retained(m, history[..j + 1]));
    }
  }

  lemma UniqueAt(m: nat, history: seq<TelemetryRecord>, n: nat)
    requires 1 <= m && n <= |history| && NoKeyRepeatedWhileRetained(m, history)
    ensures KeysAreUnique(Retained(m, history[..n]))
  {
    RetainedIsSuffix(m, history[..n]);
    hide Retained, RetainedLength, SameKey;
    var start, tel := FirstRetained(m, n), Retained(m, history[..n]);
    forall a, b | 0 <= a < b < |tel| ensures !SameKey(tel[a], tel[b]) {
      assert tel[a] == history[start + a] && tel[b] == history[start + b];
      FirstRetainedGrows(m, start + b + 1, n);
    }
  }

  /** A record saved twice is retained twice, and every query that matches it
      finds it twice. */
  lemma DuplicatesAreKept(m: nat, r: TelemetryRecord, q: TelemetryQuery)
    requires m >= 2 && q.Matches(r)
    ensures Retained(m, [r, r]) == [r, r] && !KeysAreUnique([r, r])
    ensures multiset(Scan([r, r], q))[QueryCopy(r)] == 2
  {
    RetainedIsSuffix(m, [r, r]);
    ScanCounts([r, r], q, QueryCopy(r));
    hide *;
    assert [r, r][0..] == [r, r];
    TwoPositions([r, r], r, q);
  }

  lemma TwoPositions(tel: seq<TelemetryRecord>, r: TelemetryRecord, q: TelemetryQuery)
    requires |tel| == 2 && tel[0] == tel[1] == r && q.Matches(r)
    ensures !KeysAreUnique(tel) && |MatchingPositions(tel, q, QueryCopy(r))| == 2
  {
    assert SameKey(tel[0], tel[1]);
    assert MatchingPositions(tel, q, QueryCopy(r)) == {0, 1};
  }
}
