/** The streamer of internal/streamer/streamer.go: it publishes its records round
    and round, and retries the same message while the queue is full. */
module Streamer {
  import opened DivMod
  import opened Domain

  /** What a publish returns: nil, `ErrQueueFull`, or another error. */
  datatype Outcome = Accepted | QueueFull | Rejected

  datatype Attempt = Attempt(msg: Message, outcome: Outcome)

  datatype StartError = NoRecords

  /** What messages are made of.  `ids` stands for the UUID generator; the clock is
      read twice for the j-th message: `ingested(j)` stamps the record, `created(j)`
      the message. */
  datatype Source = Source(
    records: seq<TelemetryRecord>,
    instanceId: string,
    ids: nat -> string,
    ingested: nat -> int,
    created: nat -> int)
  {
    /** The j-th message: record j mod n with its new ingestion time. */
    function MessageNo(j: nat): Message
      requires records != []
    {
      Message(ids(j), Some(records[j % |records|].(ingestionTime := ingested(j))), created(j), instanceId)
    }

    ghost predicate FreshIds() {
      forall i: nat, j: nat :: ids(i) == ids(j) ==> i == j
    }
  }

  /** How many messages the streamer is done with after these outcomes. */
  function Settled(outcomes: seq<Outcome>): nat {
    if outcomes == [] then 0
    else Settled(outcomes[..|outcomes| - 1]) + if outcomes[|outcomes| - 1].QueueFull? then 0 else 1
  }

  lemma SettledSnoc(outcomes: seq<Outcome>, k: nat)
    requires k < |outcomes|
    ensures Settled(outcomes[..k + 1]) == Settled(outcomes[..k]) + if outcomes[k].QueueFull? then 0 else 1
  {
    assert outcomes[..k + 1][..k] == outcomes[..k];
  }

  /** Attempt k carries the message whose number is what was settled before it. */
  ghost predicate Follows(source: Source, attempts: seq<Attempt>, outcomes: seq<Outcome>)
    requires source.records != []
  {
    && |attempts| == |outcomes|
    && forall k :: 0 <= k < |attempts| ==>
         attempts[k] == Attempt(source.MessageNo(Settled(outcomes[..k])), outcomes[k])
  }

  lemma FollowsSnoc(source: Source, attempts: seq<Attempt>, outcomes: seq<Outcome>, k: nat)
    requires source.records != [] && k < |outcomes| && Follows(source, attempts, outcomes[..k])
    ensures Follows(source, attempts + [Attempt(source.MessageNo(Settled(outcomes[..k])), outcomes[k])], outcomes[..k + 1])
  {
    hide Settled, Source.MessageNo;
    var attempts' := attempts + [Attempt(source.MessageNo(Settled(outcomes[..k])), outcomes[k])];
    forall i | 0 <= i < k + 1
      ensures attempts'[i] == Attempt(source.MessageNo(Settled(outcomes[..k + 1][..i])), outcomes[..k + 1][i])
    {
      assert outcomes[..k + 1][..i] == outcomes[..i];
      if i < k { assert outcomes[..k][..i] == outcomes[..i] && attempts'[i] == attempts[i]; }
    }
  }

  lemma NothingAttempted(source: Source, outcomes: seq<Outcome>)
    requires source.records != []
    ensures Follows(source, [], outcomes[..0]) && Settled(outcomes[..0]) == 0
  {
  }

  /** What is settled, written out: the outcomes other than a full queue. */
  lemma {:induction false} SettledCounts(outcomes: seq<Outcome>, k: nat)
    requires k <= |outcomes|
    ensures Settled(outcomes[..k]) == |set x: nat | x < k && !outcomes[x].QueueFull?|
  {
    if k > 0 {
      SettledCounts(outcomes, k - 1);
      SettledSnoc(outcomes, k - 1);
      var before, now := set x: nat | x < k - 1 && !outcomes[x].QueueFull?, set x: nat | x < k && !outcomes[x].QueueFull?;
      assert now == before + if outcomes[k - 1].QueueFull? then {} else {k - 1};
    }
  }

  /** The attempts, written out: attempt k carries the record whose number, round
      and round, is how many publishes before k did not meet a full queue. */
  lemma AttemptsAre(source: Source, attempts: seq<Attempt>, outcomes: seq<Outcome>)
    requires source.records != [] && Follows(source, attempts, outcomes)
    ensures |attempts| == |outcomes|
    ensures forall k :: 0 <= k < |attempts| ==>
              var j := |set x: nat | x < k && !outcomes[x].QueueFull?|;
              && attempts[k].outcome == outcomes[k]
              && attempts[k].msg.id == source.ids(j) && attempts[k].msg.timestamp == source.created(j)
              && attempts[k].msg.producerId == source.instanceId
              && attempts[k].msg.payload
                 == Some(source.records[j % |source.records|].(ingestionTime := source.ingested(j)))
  {
    forall k | 0 <= k < |attempts| { SettledCounts(outcomes, k); }
  }

  class Streamer {
    var records: seq<TelemetryRecord>
    const instanceId: string

    constructor (records: seq<TelemetryRecord>, instanceId: string)
      ensures this.records == records && this.instanceId == instanceId
    {
      this.records, this.instanceId := records, instanceId;
    }

    /** Refuses to start without records; otherwise streams until cancelled. */
    method Start(outcomes: seq<Outcome>, ids: nat -> string, ingested: nat -> int, created: nat -> int)
      returns (r: Result<seq<Attempt>, StartError>)
      ensures records == [] ==> r == Err(NoRecords)
      ensures records != [] ==> r.Ok? && Follows(Source(records, instanceId, ids, ingested, created), r.value, outcomes)
      ensures records != [] ==> |r.value| == |outcomes|
      ensures records != [] ==> forall k :: 0 <= k < |r.value| ==>
                var j := |set x: nat | x < k && !outcomes[x].QueueFull?|;
                && r.value[k].outcome == outcomes[k]
                && r.value[k].msg.id == ids(j) && r.value[k].msg.timestamp == created(j)
                && r.value[k].msg.producerId == instanceId
                && r.value[k].msg.payload == Some(records[j % |records|].(ingestionTime := ingested(j)))
    {
      if |records| == 0 { return Err(NoRecords); }
      var attempts := StreamLoop(outcomes, ids, ingested, created);
      AttemptsAre(Source(records, instanceId, ids, ingested, created), attempts, outcomes);
      r := Ok(attempts);
    }

    /** The stream loop; `outcomes` is what the publishes return one after the
        other, and the context is cancelled when they are used up. */
    method StreamLoop(outcomes: seq<Outcome>, ids: nat -> string, ingested: nat -> int, created: nat -> int)
      returns (attempts: seq<Attempt>)
      requires records != []
      ensures Follows(Source(records, instanceId, ids, ingested, created), attempts, outcomes)
    {
      ghost var source := Source(records, instanceId, ids, ingested, created);
      hide Follows, Settled;
      attempts := [];
      var count: nat := 0;
      NothingAttempted(source, outcomes);
      while true
        invariant |attempts| <= |outcomes| && Follows(source, attempts, outcomes[..|attempts|])
        invariant count == Settled(outcomes[..|attempts|]) && count % |records| == 0
        decreases |outcomes| - |attempts|
      {
        if |attempts| == |outcomes| {
          assert outcomes[..|attempts|] == outcomes;
          return;
        }
        var records := this.records;
        ghost var before, round := |attempts|, count;
        var k := 0;
        while k < |records|
          invariant 0 <= k <= |records| && before <= |attempts| <= |outcomes| && (k > 0 ==> before < |attempts|)
          invariant Follows(source, attempts, outcomes[..|attempts|])
          invariant count == Settled(outcomes[..|attempts|]) == round + k
        {
          if |attempts| == |outcomes| {
            assert outcomes[..|attempts|] == outcomes;
            return;
          }
          RoundPosition(round, k, |records|);
          var recordCopy := records[k].(ingestionTime := ingested(count));
          var msg := Message(ids(count), Some(recordCopy), created(count), instanceId);

          assert msg == source.MessageNo(count);
          var published := false;
          ghost var first := |attempts|;
          while !published
            invariant first <= |attempts| <= |outcomes| && (published ==> first < |attempts|)
            invariant Follows(source, attempts, outcomes[..|attempts|])
            invariant Settled(outcomes[..|attempts|]) == count + if published then 1 else 0
            decreases |outcomes| - |attempts|, !published
          {
            if |attempts| == |outcomes| {
              assert outcomes[..|attempts|] == outcomes;
              return;
            }
            var outcome := outcomes[|attempts|];
            FollowsSnoc(source, attempts, outcomes, |attempts|);
            SettledSnoc(outcomes, |attempts|);
            attempts := attempts + [Attempt(msg, outcome)];
            if outcome.Accepted? {
              published := true;
              break;
            }
            if outcome.QueueFull? {
              continue;
            }
            break;
          }
          count := count + 1;
          k := k + 1;
        }
        RoundPosition(round, 0, |records|);
        NextRound(round, |records|);
      }
    }
  }

  lemma RoundPosition(round: nat, k: nat, n: nat)
    requires k < n && round % n == 0
    ensures (round + k) % n == k
  {
    assert round == (round / n) * n;
    DivModUnique(round + k, round / n, k, n);
  }

  lemma NextRound(round: nat, n: nat)
    requires 1 <= n && round % n == 0
    ensures (round + n) % n == 0
  {
    assert round + n == (round / n) * n + n == (round / n + 1) * n;
    DivModUnique(round + n, round / n + 1, 0, n);
  }

  // ------------------------------------------------------------ what follows

  lemma {:induction false} SettledBetween(outcomes: seq<Outcome>, k: nat, l: nat)
    requires k <= l <= |outcomes|
    ensures Settled(outcomes[..k]) <= Settled(outcomes[..l])
    ensures Settled(outcomes[..k]) == Settled(outcomes[..l]) <==> forall x :: k <= x < l ==> outcomes[x].QueueFull?
    decreases l - k
  {
    if k == l {
    } else {
      SettledBetween(outcomes, k, l - 1);
      SettledSnoc(outcomes, l - 1);
    }
  }

  /** Two attempts carry the same message ID exactly if they are retries of one
      message: the queue was full at the first and at every attempt in between. */
  lemma SameIdIffRetry(source: Source, attempts: seq<Attempt>, outcomes: seq<Outcome>, k: nat, l: nat)
    requires source.records != [] && source.FreshIds() && Follows(source, attempts, outcomes) && k <= l < |attempts|
    ensures attempts[k].msg.id == attempts[l].msg.id <==> forall x :: k <= x < l ==> outcomes[x].QueueFull?
    ensures attempts[k].msg.id == attempts[l].msg.id ==> attempts[k].msg == attempts[l].msg
  {
    SettledBetween(outcomes, k, l);
  }

  function AcceptedMessages(attempts: seq<Attempt>): seq<Message> {
    if attempts == [] then []
    else
      var last := attempts[|attempts| - 1];
      AcceptedMessages(attempts[..|attempts| - 1]) + if last.outcome.Accepted? then [last.msg] else []
  }

  function Rejections(outcomes: seq<Outcome>): nat {
    if outcomes == [] then 0
    else Rejections(outcomes[..|outcomes| - 1]) + if outcomes[|outcomes| - 1].Rejected? then 1 else 0
  }

  /** No accepted publish comes after a rejected one. */
  ghost predicate NoneAfterRejection(outcomes: seq<Outcome>) {
    forall x, y :: 0 <= x < y < |outcomes| && outcomes[x].Rejected? ==> !outcomes[y].Accepted?
  }

  ghost predicate InRecordOrder(source: Source, accepted: seq<Message>)
    requires source.records != []
  {
    forall i :: 0 <= i < |accepted| ==> accepted[i] == source.MessageNo(i)
  }

  lemma {:induction false} RejectionsZeroIff(outcomes: seq<Outcome>)
    ensures Rejections(outcomes) == 0 <==> forall x :: 0 <= x < |outcomes| ==> !outcomes[x].Rejected?
  {
    if outcomes == [] {
    } else {
      var n := |outcomes| - 1;
      RejectionsZeroIff(outcomes[..n]);
      assert forall x :: 0 <= x < n ==> outcomes[..n][x] == outcomes[x];
    }
  }

  lemma FollowsPrefix(source: Source, attempts: seq<Attempt>, outcomes: seq<Outcome>)
    requires source.records != [] && Follows(source, attempts, outcomes) && attempts != []
    ensures Follows(source, attempts[..|attempts| - 1], outcomes[..|outcomes| - 1])
  {
    var n := |attempts| - 1;
    forall k | 0 <= k < n ensures outcomes[..n][..k] == outcomes[..k] { }
  }

  lemma {:induction false} AcceptedAndRejectedAreSettled(source: Source, attempts: seq<Attempt>, outcomes: seq<Outcome>)
    requires source.records != [] && Follows(source, attempts, outcomes)
    ensures |AcceptedMessages(attempts)| + Rejections(outcomes) == Settled(outcomes)
  {
    if attempts == [] {
    } else {
      FollowsPrefix(source, attempts, outcomes);
      AcceptedAndRejectedAreSettled(source, attempts[..|attempts| - 1], outcomes[..|outcomes| - 1]);
    }
  }

  /** Accepted messages are numbered below what is settled, in ascending order. */
  lemma {:induction false} AcceptedAscend(source: Source, attempts: seq<Attempt>, outcomes: seq<Outcome>) returns (numbers: seq<nat>)
    requires source.records != [] && Follows(source, attempts, outcomes)
    ensures |numbers| == |AcceptedMessages(attempts)|
    ensures forall i :: 0 <= i < |numbers| ==>
              numbers[i] < Settled(outcomes) && AcceptedMessages(attempts)[i] == source.MessageNo(numbers[i])
    ensures forall i, j :: 0 <= i < j < |numbers| ==> numbers[i] < numbers[j]
  {
    if attempts == [] {
      numbers := [];
    } else {
      var n := |attempts| - 1;
      FollowsPrefix(source, attempts, outcomes);
      numbers := AcceptedAscend(source, attempts[..n], outcomes[..n]);
      assert attempts[n].msg == source.MessageNo(Settled(outcomes[..n]));
      hide Source.MessageNo, Follows;
      if outcomes[n].Accepted? { numbers := numbers + [Settled(outcomes[..n])]; }
    }
  }

  /** No message is ever accepted twice, whatever the publishes return. */
  lemma AcceptedOnlyOnce(source: Source, attempts: seq<Attempt>, outcomes: seq<Outcome>)
    requires source.records != [] && source.FreshIds() && Follows(source, attempts, outcomes)
    ensures var accepted := AcceptedMessages(attempts);
            forall i, j :: 0 <= i < j < |accepted| ==> accepted[i].id != accepted[j].id
  {
    var numbers := AcceptedAscend(source, attempts, outcomes);
    var accepted := AcceptedMessages(attempts);
    hide AcceptedMessages, Follows;
    forall i, j | 0 <= i < j < |accepted| ensures accepted[i].id != accepted[j].id {
      assert source.ids(numbers[i]) != source.ids(numbers[j]);
    }
  }

  lemma NoneAfterRejectionSnoc(outcomes: seq<Outcome>)
    requires outcomes != []
    ensures var n := |outcomes| - 1;
            NoneAfterRejection(outcomes) <==>
              NoneAfterRejection(outcomes[..n]) && (outcomes[n].Accepted? ==> Rejections(outcomes[..n]) == 0)
  {
    var n := |outcomes| - 1;
    RejectionsZeroIff(outcomes[..n]);
    assert forall x :: 0 <= x < n ==> outcomes[..n][x] == outcomes[x];
  }

  lemma InRecordOrderSnoc(source: Source, accepted: seq<Message>, j: nat)
    requires source.records != [] && source.FreshIds() && |accepted| <= j
    ensures InRecordOrder(source, accepted + [source.MessageNo(j)]) <==> InRecordOrder(source, accepted) && j == |accepted|
  {
    var more := accepted + [source.MessageNo(j)];
    assert forall i :: 0 <= i < |accepted| ==> more[i] == accepted[i];
    if InRecordOrder(source, more) {
      assert more[|accepted|] == source.MessageNo(|accepted|);
      assert source.ids(j) == source.ids(|accepted|);
    }
  }

  /** The i-th accepted publish carries message i, hence record i mod n, exactly
      as long as nothing is accepted after a publish failed for another reason
      than a full queue: such a failure skips its record. */
  lemma {:induction false} StreamsInOrderIff(source: Source, attempts: seq<Attempt>, outcomes: seq<Outcome>)
    requires source.records != [] && source.FreshIds() && Follows(source, attempts, outcomes)
    ensures InRecordOrder(source, AcceptedMessages(attempts)) <==> NoneAfterRejection(outcomes)
  {
    if attempts == [] {
    } else {
      hide InRecordOrder, NoneAfterRejection, Source.FreshIds, Settled, Rejections;
      var n := |attempts| - 1;
      FollowsPrefix(source, attempts, outcomes);
      StreamsInOrderIff(source, attempts[..n], outcomes[..n]);
      AcceptedAndRejectedAreSettled(source, attempts[..n], outcomes[..n]);
      NoneAfterRejectionSnoc(outcomes);
      if outcomes[n].Accepted? {
        InRecordOrderSnoc(source, AcceptedMessages(attempts[..n]), Settled(outcomes[..n]));
      } else {
        assert AcceptedMessages(attempts) == AcceptedMessages(attempts[..n]);
      }
    }
  }

  /** Against a queue whose only error is `ErrQueueFull`: the i-th accepted
      publish carries record i mod n, apart from its ingestion time, and no record
      is skipped or published twice in a round. */
  lemma BackpressureKeepsOrder(source: Source, attempts: seq<Attempt>, outcomes: seq<Outcome>)
    requires source.records != [] && source.FreshIds() && Follows(source, attempts, outcomes)
    requires forall x :: 0 <= x < |outcomes| ==> !outcomes[x].Rejected?
    ensures var accepted := AcceptedMessages(attempts);
            && |accepted| == Settled(outcomes)
            && forall i :: 0 <= i < |accepted| ==>
                 && accepted[i].id == source.ids(i)
                 && accepted[i].payload.Some?
                 && accepted[i].payload.value
                    == source.records[i % |source.records|].(ingestionTime := accepted[i].payload.value.ingestionTime)
  {
    StreamsInOrderIff(source, attempts, outcomes);
    AcceptedAndRejectedAreSettled(source, attempts, outcomes);
    RejectionsZeroIff(outcomes);
  }
}
