/** What a nil result of `Ack` tells the caller: a send is tracked only after it
    has happened, so an Ack can arrive before its pending entry exists, and the
    message may be sent again. */
module EarlyAck {
  import opened Domain
  import opened QueueTypes
  import opened QueueProtocol
  import opened QueueShape
  import opened QueueLedger
  import opened DeliveryRuns
  import opened QueueReach
  import opened QueueFate
  import opened QueueDeadEnds

  /** `Ack` returns nil: there is no entry, or it is the caller's. */
  predicate ReturnsNil(s: State, id: string, consumerId: string) {
    id in s.pending ==> s.pending[id].consumerId == consumerId
  }

  /** A nil Ack leaves the queue without an accepted message exactly if the
      message was pending, or had an outcome already. */
  lemma NilAckLetsGoIff(c: Config, s: State, m: Message, consumerId: string)
    requires Ledger(s) && m in s.hist.accepted
    requires CallEnabled(s, Ack(m.id, consumerId)) && ReturnsNil(s, m.id, consumerId)
    ensures var s' := ApplyCall(c, s, Ack(m.id, consumerId));
            Held(s', m) == 0 <==> m.id in s.pending || Outcomes(s.hist, m) == 1
  {
    assert Balanced(s, m);
    DistinctCountsOnce(s.hist.accepted, m);
    CountIn(s.hist.accepted, m);
    if m.id in s.pending {
      var x := s.pending[m.id].message;
      assert Balanced(s, x);
      CountIn(s.hist.accepted, x);
      assert x == m;
    }
  }

  /** When a nil Ack is the last word.  In any state of any run, open, draining or
      finished: after an Ack that returns nil no continuation sends the message
      again if and only if it was pending, or had an outcome already, or was past
      saving, or stranded by a Close. */
  lemma NilAckIsFinalIff(c: Config, r: Run, i: nat, m: Message, consumerId: string)
    requires c.bufferSize > 0 && 0 <= c.ackTimeout < c.pendingTtl
    requires IsRun(c, r) && i < |r.states| && m in r.states[i].hist.accepted
    requires CallEnabled(r.states[i], Ack(m.id, consumerId)) && ReturnsNil(r.states[i], m.id, consumerId)
    ensures var s := r.states[i];
            var s' := ApplyCall(c, s, Ack(m.id, consumerId));
            !CanSend(c, s', m) <==>
            m.id in s.pending || Outcomes(s.hist, m) == 1 || PastSaving(c, s, m) || Stranded(c, s, m)
  {
    var s := r.states[i];
    var a := Called(Ack(m.id, consumerId));
    RunKeepsGood(c, r, i);
    StepKeepsGood(c, s, a);
    var s' := Apply(c, s, a);
    NilAckLetsGoIff(c, s, m, consumerId);
    HeldOrSettled(c, s', m);
    GoodCanSendIff(c, s', m);
    hide Good, Held, PastSaving, Stranded, CanSend, Outcomes;
  }

  lemma Then(c: Config, s: State, path: seq<Action>, mid: State, a: Action) returns (path': seq<Action>, s': State)
    requires Leads(c, s, path, mid) && Shape(c, mid) && Enabled(c, mid, a)
    ensures path' == path + [a] && s' == Apply(c, mid, a) && Leads(c, s, path', s') && Shape(c, s')
  {
    path', s' := path + [a], Apply(c, mid, a);
    StepKeepsShape(c, mid, a);
    LeadsOne(c, mid, a);
    LeadsAppend(c, s, path, mid, [a], s');
  }

  /** The head of the retry loop with one subscriber, which has room. */
  lemma SendLeads(c: Config, s: State, path: seq<Action>, mid: State, who: Actor) returns (path': seq<Action>, s': State)
    requires Leads(c, s, path, mid) && Shape(c, mid) && WorkerOf(mid, who).pc.Top?
    requires mid.subscribers == [0] && mid.cursor == 0 && |mid.table| == 1
    requires var sub := mid.table[0]; !sub.closed && !sub.shut && sub.channel == []
    ensures Leads(c, s, path', s') && Shape(c, s') && path <= path'
    ensures var sub := mid.table[0];
            var m := WorkerOf(mid, who).todo[0];
            s' == SetPc(mid, who, Tracking(0)).(table := [sub.(channel := [m])],
                                                hist := mid.hist.(sent := mid.hist.sent + [m]))
  {
    assert WorkerOf(mid, who).todo != [] && c.bufferSize > 0;
    hide Leads, Shape, NextPc;
    var pick, picked := PickLeads(c, mid, who);
    LeadsAppend(c, s, path, mid, pick, picked);
    assert picked == SetPc(mid, who, Sending(WorkerOf(mid, who).pc.attempts, 0));
    path', s' := Then(c, s, path + pick, picked, Delivered(who, SendOk));
    var sub := mid.table[0];
    var m := WorkerOf(mid, who).todo[0];
    assert sub.channel + [m] == [m];
    assert mid.table[0 := sub.(channel := [m])] == [sub.(channel := [m])];
  }

  /** A run of the queue from its creation in which the only Ack of a message
      returns nil and comes after the send, and yet the message is sent again:
      the Ack overtook the tracking, so the entry it missed times out. */
  lemma EarlyAckIsLost(c: Config, m: Message, consumerId: string)
    returns (before: seq<Action>, s: State, path: seq<Action>, s': State)
    requires c.bufferSize > 0 && 0 <= c.ackTimeout < c.pendingTtl
    requires m.id != "" && m.payload.Some? && consumerId != ""
    ensures Leads(c, Init(), before, s) && s.hist.sent == [m]
    ensures CallEnabled(s, Ack(m.id, consumerId)) && ReturnsNil(s, m.id, consumerId)
    ensures Leads(c, Init(), path, s') && before + [Called(Ack(m.id, consumerId))] <= path
    ensures s'.hist.sent == [m, m] && s'.hist.acked == []
  {
    hide Leads, ApplyDelivery, NextPc, Shape;
    before, s := FirstSend(c, m, consumerId);
    var p, x := Then(c, Init(), before, s, Called(Ack(m.id, consumerId)));
    assert x == s;
    path, s' := SecondSend(c, m, consumerId, p, x);
  }

  /** The only subscriber has an empty channel, and `who` is about to send it the message. */
  ghost predicate AboutToSend(s: State, m: Message, consumerId: string, who: Actor, sent: seq<Message>) {
    && s.subscribers == [0] && s.cursor == 0 && !s.closed
    && s.table == [Subscriber(consumerId, [], false, false, false, false)]
    && WorkerOf(s, who) == Worker([m], Top(0))
    && s.pending == map[] && s.hist.sent == sent && s.hist.acked == []
    && (who.Distributor? ==> s.now == 0 && s.redel == Worker([], Idle))
  }

  /** The message has been sent to the only subscriber, which took it, and is not yet tracked. */
  ghost predicate JustSent(s: State, m: Message, consumerId: string) {
    && s.now == 0 && s.subscribers == [0] && s.cursor == 0 && !s.closed
    && s.table == [Subscriber(consumerId, [], false, false, false, false)]
    && s.dist == Worker([m], Tracking(0)) && s.redel == Worker([], Idle)
    && s.pending == map[] && s.hist.sent == [m] && s.hist.acked == []
  }

  lemma Arrival(c: Config, m: Message, consumerId: string) returns (path: seq<Action>, s: State)
    requires c.bufferSize > 0 && m.id != "" && m.payload.Some? && consumerId != ""
    ensures Leads(c, Init(), path, s) && Shape(c, s) && AboutToSend(s, m, consumerId, Distributor, [])
  {
    assert Leads(c, Init(), [], Init()) && Shape(c, Init());
    hide Leads, Shape;
    path, s := Then(c, Init(), [], Init(), Called(Subscribe(consumerId)));
    path, s := Then(c, Init(), path, s, Called(Publish(m)));
    path, s := Then(c, Init(), path, s, Looped(Receive));
    path, s := Then(c, Init(), path, s, Looped(Dispatch));
    assert s.dist.todo == [m];
  }

  lemma FirstSend(c: Config, m: Message, consumerId: string) returns (path: seq<Action>, s: State)
    requires c.bufferSize > 0 && m.id != "" && m.payload.Some? && consumerId != ""
    ensures Leads(c, Init(), path, s) && Shape(c, s) && JustSent(s, m, consumerId)
  {
    hide Leads, Shape;
    path, s := Arrival(c, m, consumerId);
    path, s := SendLeads(c, Init(), path, s, Distributor);
    assert s.table[0 := s.table[0].(channel := [])] == [s.table[0].(channel := [])] && [m][1..] == [];
    path, s := Then(c, Init(), path, s, Called(TakeFrom(0)));
  }

  /** Tracked at time 0 and never acknowledged. */
  ghost predicate Forgotten(s: State, m: Message, consumerId: string) {
    && s.subscribers == [0] && s.cursor == 0 && !s.closed
    && s.table == [Subscriber(consumerId, [], false, false, false, false)]
    && s.dist == Worker([], Idle) && s.redel == Worker([], Idle)
    && s.pending == map[m.id := Pending(m, consumerId, 0)] && s.hist.sent == [m] && s.hist.acked == []
  }

  lemma Tracked(c: Config, m: Message, consumerId: string, before: seq<Action>, s: State) returns (path: seq<Action>, s': State)
    requires c.bufferSize > 0 && Leads(c, Init(), before, s) && Shape(c, s) && JustSent(s, m, consumerId)
    ensures Leads(c, Init(), path, s') && Shape(c, s') && before <= path && s'.now == 0 && Forgotten(s', m, consumerId)
  {
    hide Leads, Shape;
    assert |s.pending| == 0 < c.MaxPending();
    path, s' := Then(c, Init(), before, s, Delivered(Distributor, Track));
    assert s'.pending == map[m.id := Pending(m, consumerId, 0)];
  }

  lemma SweepFinds(c: Config, m: Message, consumerId: string, s: State)
    requires 0 <= c.ackTimeout < c.pendingTtl && Forgotten(s, m, consumerId) && s.now == c.ackTimeout + 1
    ensures LoopEnabled(c, s, Sweep([m.id], []))
    ensures AboutToSend(ApplySweep(c, s, [m.id], []), m, consumerId, Redeliverer, [m])
  {
    OneMessage(s.pending, m.id);
    assert LateIds(c, s.pending, s.now) == {m.id} && ExpiredIds(c, s.pending, s.now) == {};
    hide LateIds, ExpiredIds, MessagesOf;
    assert s.pending - {m.id} - {} == map[];
  }

  lemma Timeout(c: Config, m: Message, consumerId: string, before: seq<Action>, s: State) returns (path: seq<Action>, s': State)
    requires c.bufferSize > 0 && 0 <= c.ackTimeout < c.pendingTtl
    requires Leads(c, Init(), before, s) && Shape(c, s) && JustSent(s, m, consumerId)
    ensures Leads(c, Init(), path, s') && Shape(c, s') && before <= path
    ensures AboutToSend(s', m, consumerId, Redeliverer, [m])
  {
    hide Leads, Shape, MessagesOf, JustSent, AboutToSend;
    path, s' := Tracked(c, m, consumerId, before, s);
    path, s' := Then(c, Init(), path, s', Called(Tick(c.ackTimeout + 1)));
    SweepFinds(c, m, consumerId, s');
    path, s' := Then(c, Init(), path, s', Looped(Sweep([m.id], [])));
  }

  lemma SecondSend(c: Config, m: Message, consumerId: string, before: seq<Action>, s: State) returns (path: seq<Action>, s': State)
    requires c.bufferSize > 0 && 0 <= c.ackTimeout < c.pendingTtl
    requires Leads(c, Init(), before, s) && Shape(c, s) && JustSent(s, m, consumerId)
    ensures Leads(c, Init(), path, s') && before <= path
    ensures s'.hist.sent == [m, m] && s'.hist.acked == []
  {
    hide Leads, Shape, JustSent;
    path, s' := Timeout(c, m, consumerId, before, s);
    path, s' := SendLeads(c, Init(), path, s', Redeliverer);
  }

  lemma OneMessage(pending: map<string, Pending>, id: string)
    requires id in pending
    ensures MessagesOf(pending, [id]) == [pending[id].message]
  {
    assert [id][1..] == [];
  }
}
