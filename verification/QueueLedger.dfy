/** Where every accepted message is: conservation, and how often it is sent. */
module QueueLedger {
  import opened Domain
  import opened QueueTypes
  import opened QueueProtocol
  import opened QueueShape

  function Count(ms: seq<Message>, m: Message): nat {
    if ms == [] then 0 else (if ms[0] == m then 1 else 0) + Count(ms[1..], m)
  }

  lemma {:induction false} CountAppend(a: seq<Message>, b: seq<Message>, m: Message)
    ensures Count(a + b, m) == Count(a, m) + Count(b, m)
  {
    if a == [] {
      assert a + b == b;
    } else {
      CountAppend(a[1..], b, m);
      assert (a + b)[1..] == a[1..] + b;
    }
  }

  lemma CountSnoc(ms: seq<Message>, x: Message, m: Message)
    ensures Count(ms + [x], m) == Count(ms, m) + if x == m then 1 else 0
  {
    CountAppend(ms, [x], m);
  }

  lemma {:induction false} CountIn(ms: seq<Message>, m: Message)
    ensures Count(ms, m) > 0 <==> m in ms
  {
    if ms == [] {
    } else {
      CountIn(ms[1..], m);
      assert m in ms <==> m == ms[0] || m in ms[1..];
    }
  }

  function InPending(pending: map<string, Pending>, m: Message): nat {
    if m.id in pending && pending[m.id].message == m then 1 else 0
  }

  /** The ways a message can leave the queue for good. */
  function Outcomes(h: History, m: Message): nat {
    Count(h.acked, m) + Count(h.dropped, m) + Count(h.untracked, m) + Count(h.expired, m) + Count(h.cleared, m)
  }

  /** Where the queue still holds a message: the input channel, the hands of the
      two goroutines (a sent message stays in hand until it is tracked), the
      backlog, or pending. */
  function Held(s: State, m: Message): nat {
    Count(s.input, m) + Count(s.dist.todo, m) + Count(s.redel.todo, m) + Count(s.backlog, m) + InPending(s.pending, m)
  }

  /** The places in which a message is waiting to be sent, or was given up unsent. */
  function Unsent(s: State, m: Message): nat {
    Count(s.input, m) + Count(s.dist.Unsent(), m) + Count(s.redel.Unsent(), m) + Count(s.backlog, m)
    + Count(s.hist.dropped, m)
  }

  /** The two balances: every acceptance is in exactly one place, and every
      acceptance and every timeout is paid by one send or still waits for one. */
  ghost predicate Balanced(s: State, m: Message) {
    && Held(s, m) + Outcomes(s.hist, m) == Count(s.hist.accepted, m)
    && Count(s.hist.sent, m) + Unsent(s, m) == Count(s.hist.accepted, m) + Count(s.hist.timedOut, m)
  }

  ghost predicate DistinctIds(ms: seq<Message>) {
    forall i, j :: 0 <= i < j < |ms| ==> ms[i].id != ms[j].id
  }

  ghost predicate KeysAgree(pending: map<string, Pending>) {
    forall id :: id in pending ==> pending[id].message.id == id
  }

  ghost predicate Ledger(s: State) {
    && DistinctIds(s.hist.accepted)
    && KeysAgree(s.pending)
    && (forall m :: Balanced(s, m))
  }

  lemma {:induction false} DistinctCountsOnce(ms: seq<Message>, m: Message)
    requires DistinctIds(ms)
    ensures Count(ms, m) <= 1
  {
    if ms == [] {
    } else {
      DistinctCountsOnce(ms[1..], m);
      CountIn(ms[1..], m);
      assert forall k :: 0 <= k < |ms[1..]| ==> ms[1..][k] != ms[0];
    }
  }

  lemma {:induction false} MessagesOfCount(pending: map<string, Pending>, ids: seq<string>, m: Message)
    requires forall i, j :: 0 <= i < j < |ids| ==> ids[i] != ids[j]
    requires forall id :: id in ids ==> id in pending
    requires KeysAgree(pending)
    ensures Count(MessagesOf(pending, ids), m) == if m.id in ids then InPending(pending, m) else 0
  {
    if ids == [] {
    } else {
      MessagesOfCount(pending, ids[1..], m);
      assert MessagesOf(pending, ids)[1..] == MessagesOf(pending, ids[1..]);
      assert m.id in ids <==> m.id == ids[0] || m.id in ids[1..];
      assert forall k :: 0 <= k < |ids[1..]| ==> ids[1..][k] != ids[0];
    }
  }

  lemma BufferOneCount(c: Config, s: State, x: Message, m: Message)
    ensures var s' := BufferOne(c, s, x);
            Count(s'.backlog, m) + Count(s'.hist.dropped, m)
            == Count(s.backlog, m) + Count(s.hist.dropped, m) + if x == m then 1 else 0
    ensures var s' := BufferOne(c, s, x);
            s' == s.(backlog := s'.backlog, hist := s.hist.(dropped := s'.hist.dropped))
  {
    CountSnoc(s.backlog, x, m);
    CountSnoc(s.hist.dropped, x, m);
  }

  /** Buffering moves messages from a list to the backlog or to the dropped ones. */
  lemma {:induction false} BufferAllCount(c: Config, s: State, ms: seq<Message>, m: Message)
    ensures var s' := BufferAll(c, s, ms);
            Count(s'.backlog, m) + Count(s'.hist.dropped, m)
            == Count(s.backlog, m) + Count(s.hist.dropped, m) + Count(ms, m)
    decreases |ms|
  {
    if ms == [] {
    } else {
      BufferOneCount(c, s, ms[0], m);
      BufferAllCount(c, BufferOne(c, s, ms[0]), ms[1..], m);
    }
  }

  // ------------------------------------------------------------------ calls

  lemma PublishKeepsBalance(c: Config, s: State, p: Message, m: Message)
    requires CallEnabled(s, Publish(p)) && Balanced(s, m)
    ensures Balanced(ApplyCall(c, s, Publish(p)), m)
  {
    CountSnoc(s.input, p, m);
    CountSnoc(s.hist.accepted, p, m);
  }

  lemma AckKeepsBalance(c: Config, s: State, id: string, consumerId: string, m: Message)
    requires CallEnabled(s, Ack(id, consumerId)) && Balanced(s, m) && KeysAgree(s.pending)
    ensures Balanced(ApplyCall(c, s, Ack(id, consumerId)), m)
  {
    if id in s.pending { CountSnoc(s.hist.acked, s.pending[id].message, m); }
  }

  lemma FinishCloseKeepsBalance(c: Config, s: State, ids: seq<string>, m: Message)
    requires CallEnabled(s, FinishClose(ids)) && Balanced(s, m) && KeysAgree(s.pending)
    ensures Balanced(ApplyCall(c, s, FinishClose(ids)), m)
  {
    MessagesOfCount(s.pending, ids, m);
    CountAppend(s.hist.cleared, MessagesOf(s.pending, ids), m);
  }

  lemma CallKeepsBalance(c: Config, s: State, call: Call, m: Message)
    requires CallEnabled(s, call) && Balanced(s, m) && KeysAgree(s.pending)
    ensures Balanced(ApplyCall(c, s, call), m)
  {
    match call
    case Publish(p) => PublishKeepsBalance(c, s, p, m);
    case Ack(id, consumerId) => AckKeepsBalance(c, s, id, consumerId, m);
    case FinishClose(ids) => FinishCloseKeepsBalance(c, s, ids, m);
    case _ =>
  }

  lemma CallKeepsKeys(c: Config, s: State, call: Call)
    requires CallEnabled(s, call) && KeysAgree(s.pending) && DistinctIds(s.hist.accepted)
    ensures KeysAgree(ApplyCall(c, s, call).pending) && DistinctIds(ApplyCall(c, s, call).hist.accepted)
  {
  }

  // --------------------------------------------------- the goroutines' loops

  lemma ReceiveKeepsBalance(c: Config, s: State, m: Message)
    requires Shape(c, s) && LoopEnabled(c, s, Receive) && Balanced(s, m)
    ensures Balanced(ApplyLoop(c, s, Receive), m)
  {
    assert s.dist.todo == [];
    assert [s.input[0]] == [] + [s.input[0]];
    CountSnoc([], s.input[0], m);
  }

  lemma DispatchKeepsBalance(c: Config, s: State, m: Message)
    requires Shape(c, s) && LoopEnabled(c, s, Dispatch) && Balanced(s, m)
    ensures Balanced(ApplyLoop(c, s, Dispatch), m)
  {
    if s.subscribers == [] {
      hide Count;
      AdvanceLetsGo(s, Distributor, m);
      BufferOneCount(c, s.(dist := s.dist.Advance()), s.dist.todo[0], m);
    } else {
      CountAppend(s.backlog, s.dist.todo, m);
    }
  }

  /** A pending message is kept, timed out or expired by a sweep: one of the three. */
  lemma SweepCounts(c: Config, s: State, timeouts: seq<string>, expiries: seq<string>, m: Message)
    requires LoopEnabled(c, s, Sweep(timeouts, expiries)) && KeysAgree(s.pending)
    ensures InPending(s.pending, m) ==
            InPending(s.pending - LateIds(c, s.pending, s.now) - ExpiredIds(c, s.pending, s.now), m)
            + Count(MessagesOf(s.pending, timeouts), m) + Count(MessagesOf(s.pending, expiries), m)
  {
    MessagesOfCount(s.pending, timeouts, m);
    MessagesOfCount(s.pending, expiries, m);
  }

  lemma SweepKeepsBalance(c: Config, s: State, timeouts: seq<string>, expiries: seq<string>, m: Message)
    requires Shape(c, s) && LoopEnabled(c, s, Sweep(timeouts, expiries)) && Balanced(s, m) && KeysAgree(s.pending)
    ensures Balanced(ApplySweep(c, s, timeouts, expiries), m)
  {
    var late, gone := MessagesOf(s.pending, timeouts), MessagesOf(s.pending, expiries);
    var s' := ApplySweep(c, s, timeouts, expiries);
    SweepCounts(c, s, timeouts, expiries, m);
    CountAppend(s.hist.timedOut, late, m);
    CountAppend(s.hist.expired, gone, m);
    assert s.redel.todo == [] && s'.redel.todo == late && s'.redel.Unsent() == late;
    assert Held(s', m) == Held(s, m) - InPending(s.pending, m) + InPending(s'.pending, m) + Count(late, m);
    assert Unsent(s', m) == Unsent(s, m) + Count(late, m);
    assert Outcomes(s'.hist, m) == Outcomes(s.hist, m) + Count(gone, m);
  }

  lemma LoopKeepsBalance(c: Config, s: State, step: LoopStep, m: Message)
    requires Shape(c, s) && LoopEnabled(c, s, step) && Balanced(s, m) && KeysAgree(s.pending)
    ensures Balanced(ApplyLoop(c, s, step), m)
  {
    match step
    case Receive => ReceiveKeepsBalance(c, s, m);
    case Dispatch => DispatchKeepsBalance(c, s, m);
    case Sweep(timeouts, expiries) => SweepKeepsBalance(c, s, timeouts, expiries, m);
    case RequeueAll =>
      BufferAllOnly(c, s.(redel := Worker([], Idle)), s.redel.todo);
      BufferAllCount(c, s.(redel := Worker([], Idle)), s.redel.todo, m);
    case _ =>
  }

  lemma LoopKeepsKeys(c: Config, s: State, step: LoopStep)
    requires LoopEnabled(c, s, step) && KeysAgree(s.pending)
    ensures KeysAgree(ApplyLoop(c, s, step).pending)
  {
    if step.RequeueAll? { BufferAllOnly(c, s.(redel := Worker([], Idle)), s.redel.todo); }
  }

  /** The loops themselves accept, send and acknowledge nothing. */
  lemma LoopKeepsHistory(c: Config, s: State, step: LoopStep)
    requires LoopEnabled(c, s, step)
    ensures var s' := ApplyLoop(c, s, step);
            s'.hist.accepted == s.hist.accepted && s'.hist.sent == s.hist.sent && s'.hist.acked == s.hist.acked
  {
    hide LateIds, ExpiredIds, MessagesOf, Lists;
    if step.RequeueAll? { BufferAllOnly(c, s.(redel := Worker([], Idle)), s.redel.todo); }
  }

  // --------------------------------------------------------- deliverMessage

  /** A goroutine lets go of its current message. */
  lemma AdvanceLetsGo(s: State, who: Actor, m: Message)
    requires WorkerOf(s, who).todo != []
    ensures var w := WorkerOf(s, who);
            var s' := SetWorker(s, who, w.Advance());
            var one := if w.todo[0] == m then 1 else 0;
            && Held(s', m) + one == Held(s, m)
            && Unsent(s', m) + (if w.pc.Tracking? then 0 else one) == Unsent(s, m)
  {
  }

  lemma SendKeepsBalance(c: Config, s: State, who: Actor, m: Message)
    requires DeliveryEnabled(c, s, WorkerOf(s, who), SendOk) && Balanced(s, m)
    ensures Balanced(ApplyDelivery(c, s, who, SendOk), m)
  {
    var w := WorkerOf(s, who);
    var s' := ApplyDelivery(c, s, who, SendOk);
    var one := if w.todo[0] == m then 1 else 0;
    CountSnoc(s.hist.sent, w.todo[0], m);
    assert Held(s', m) == Held(s, m) && Outcomes(s'.hist, m) == Outcomes(s.hist, m);
    assert Count(w.todo, m) == one + Count(w.todo[1..], m);
    assert Unsent(s', m) + one == Unsent(s, m);
  }

  /** A pending insert never overwrites: the message being tracked is not pending. */
  lemma TrackedIsNotPending(c: Config, s: State, who: Actor)
    requires DeliveryEnabled(c, s, WorkerOf(s, who), Track) && Ledger(s)
    ensures WorkerOf(s, who).todo[0].id !in s.pending
  {
    var m := WorkerOf(s, who).todo[0];
    assert Count(WorkerOf(s, who).todo, m) >= 1;
    if m.id in s.pending {
      var p := s.pending[m.id].message;
      assert Balanced(s, m) && Balanced(s, p);
      CountIn(s.hist.accepted, m);
      CountIn(s.hist.accepted, p);
      DistinctCountsOnce(s.hist.accepted, m);
    }
  }

  lemma TrackCounts(c: Config, s: State, x: Message, consumerId: string, m: Message)
    requires x.id !in s.pending
    ensures var s' := TrackSent(c, s, x, consumerId);
            && Held(s', m) + Outcomes(s'.hist, m) == Held(s, m) + Outcomes(s.hist, m) + (if x == m then 1 else 0)
            && Unsent(s', m) == Unsent(s, m)
            && s'.hist.sent == s.hist.sent && s'.hist.accepted == s.hist.accepted && s'.hist.timedOut == s.hist.timedOut
  {
    hide Count, Worker.Unsent;
    CountSnoc(s.hist.untracked, x, m);
  }

  lemma SettlingKeepsBalance(c: Config, s: State, who: Actor, step: DeliveryStep, m: Message)
    requires DeliveryEnabled(c, s, WorkerOf(s, who), step) && Ledger(s) && (step.Track? || step.BufferHeld?)
    ensures Balanced(ApplyDelivery(c, s, who, step), m)
  {
    assert Balanced(s, m);
    var w := WorkerOf(s, who);
    var s1 := SetWorker(s, who, w.Advance());
    AdvanceLetsGo(s, who, m);
    if step.Track? {
      TrackedIsNotPending(c, s, who);
      TrackCounts(c, s1, w.todo[0], s.table[w.pc.sub].consumerId, m);
    } else {
      BufferOneCount(c, s1, w.todo[0], m);
    }
  }

  /** The other delivery steps move no message. */
  lemma CursorMoveKeepsBalance(c: Config, s: State, who: Actor, step: DeliveryStep, m: Message)
    requires DeliveryEnabled(c, s, WorkerOf(s, who), step) && Balanced(s, m)
    requires !step.Track? && !step.BufferHeld? && !step.SendOk?
    ensures Balanced(ApplyDelivery(c, s, who, step), m)
  {
    hide Count;
  }

  lemma DeliveryKeepsBalance(c: Config, s: State, who: Actor, step: DeliveryStep, m: Message)
    requires DeliveryEnabled(c, s, WorkerOf(s, who), step) && Ledger(s)
    ensures Balanced(ApplyDelivery(c, s, who, step), m)
  {
    assert Balanced(s, m);
    match step
    case Track => SettlingKeepsBalance(c, s, who, step, m);
    case BufferHeld => SettlingKeepsBalance(c, s, who, step, m);
    case SendOk => SendKeepsBalance(c, s, who, m);
    case _ => CursorMoveKeepsBalance(c, s, who, step, m);
  }

  lemma DeliveryKeepsKeys(c: Config, s: State, who: Actor, step: DeliveryStep)
    requires DeliveryEnabled(c, s, WorkerOf(s, who), step) && KeysAgree(s.pending)
    ensures KeysAgree(ApplyDelivery(c, s, who, step).pending)
  {
    hide NextPc;
  }

  lemma DeliveryKeepsHistory(c: Config, s: State, who: Actor, step: DeliveryStep)
    requires DeliveryEnabled(c, s, WorkerOf(s, who), step)
    ensures var s' := ApplyDelivery(c, s, who, step);
            s'.hist.accepted == s.hist.accepted && s'.hist.acked == s.hist.acked && s'.hist.expired == s.hist.expired
  {
    hide NextPc;
  }

  // --------------------------------------------------------------- all steps

  lemma StepKeepsLedger(c: Config, s: State, a: Action)
    requires Shape(c, s) && Enabled(c, s, a) && Ledger(s)
    ensures Ledger(Apply(c, s, a))
  {
    match a
    case Called(call) =>
      CallKeepsKeys(c, s, call);
      forall m ensures Balanced(Apply(c, s, a), m) { assert Balanced(s, m); CallKeepsBalance(c, s, call, m); }
    case Looped(step) =>
      LoopKeepsKeys(c, s, step);
      LoopKeepsHistory(c, s, step);
      forall m ensures Balanced(Apply(c, s, a), m) { assert Balanced(s, m); LoopKeepsBalance(c, s, step, m); }
    case Delivered(who, step) =>
      DeliveryKeepsKeys(c, s, who, step);
      DeliveryKeepsHistory(c, s, who, step);
      forall m ensures Balanced(Apply(c, s, a), m) { DeliveryKeepsBalance(c, s, who, step, m); }
  }

  lemma {:induction false} RunKeepsLedger(c: Config, r: Run, i: nat)
    requires c.bufferSize > 0 && IsRun(c, r) && i < |r.states|
    ensures Ledger(r.states[i])
  {
    if i == 0 {
    } else {
      RunKeepsLedger(c, r, i - 1);
      RunKeepsShape(c, r, i - 1);
      assert Steps(c, r.states[i - 1], r.actions[i - 1], r.states[i]);
      StepKeepsLedger(c, r.states[i - 1], r.actions[i - 1]);
    }
  }

  // ------------------------------------------------------------ main results

  /** Conservation: in every interleaving an accepted message is in exactly one
      place or has exactly one outcome, and nothing else is anywhere. */
  lemma Conservation(c: Config, r: Run, i: nat, m: Message)
    requires c.bufferSize > 0 && IsRun(c, r) && i < |r.states|
    ensures var s := r.states[i];
            Held(s, m) + Outcomes(s.hist, m) == if m in s.hist.accepted then 1 else 0
  {
    RunKeepsLedger(c, r, i);
    var s := r.states[i];
    assert Balanced(s, m);
    DistinctCountsOnce(s.hist.accepted, m);
    CountIn(s.hist.accepted, m);
  }

  /** Tracking never overwrites the pending entry of another delivery. */
  lemma PendingInsertIsFresh(c: Config, r: Run, i: nat, who: Actor)
    requires c.bufferSize > 0 && IsRun(c, r) && i < |r.actions| && r.actions[i] == Delivered(who, Track)
    ensures WorkerOf(r.states[i], who).todo != [] && WorkerOf(r.states[i], who).todo[0].id !in r.states[i].pending
  {
    assert Steps(c, r.states[i], r.actions[i], r.states[i + 1]);
    RunKeepsLedger(c, r, i);
    TrackedIsNotPending(c, r.states[i], who);
  }

  /** One consumer per delivery: successful sends never exceed one plus the
      sweeps that took the message out of pending. */
  lemma SendsAreBounded(c: Config, r: Run, i: nat, m: Message)
    requires c.bufferSize > 0 && IsRun(c, r) && i < |r.states|
    ensures Count(r.states[i].hist.sent, m) <= 1 + Count(r.states[i].hist.timedOut, m)
  {
    RunKeepsLedger(c, r, i);
    assert Balanced(r.states[i], m);
    DistinctCountsOnce(r.states[i].hist.accepted, m);
  }

  /** A message that has an outcome is in nobody's hands. */
  lemma SettledIsNotInHand(s: State, who: Actor, m: Message)
    requires Ledger(s) && Outcomes(s.hist, m) >= 1
    ensures m !in WorkerOf(s, who).todo
  {
    assert Balanced(s, m);
    DistinctCountsOnce(s.hist.accepted, m);
    CountIn(WorkerOf(s, who).todo, m);
  }

  /** The lists of `h'` extend those of `h`. */
  ghost predicate Extends(h: History, h': History) {
    && h.accepted <= h'.accepted && h.sent <= h'.sent && h.timedOut <= h'.timedOut && h.acked <= h'.acked
    && h.dropped <= h'.dropped && h.untracked <= h'.untracked && h.expired <= h'.expired && h.cleared <= h'.cleared
  }

  lemma {:induction false} BufferAllExtends(c: Config, s: State, ms: seq<Message>)
    ensures s.hist.dropped <= BufferAll(c, s, ms).hist.dropped && s.backlog <= BufferAll(c, s, ms).backlog
    decreases |ms|
  {
    if ms == [] {
    } else {
      BufferAllExtends(c, BufferOne(c, s, ms[0]), ms[1..]);
    }
  }

  lemma CallExtendsHistory(c: Config, s: State, call: Call)
    requires CallEnabled(s, call)
    ensures Extends(s.hist, ApplyCall(c, s, call).hist)
  {
    hide ShutAll, MessagesOf, Lists;
  }

  lemma BufferOneExtends(c: Config, s: State, m: Message)
    ensures Extends(s.hist, BufferOne(c, s, m).hist)
  {
  }

  lemma TrackSentExtends(c: Config, s: State, m: Message, consumerId: string)
    ensures Extends(s.hist, TrackSent(c, s, m, consumerId).hist)
  {
  }

  lemma SweepExtendsHistory(c: Config, s: State, timeouts: seq<string>, expiries: seq<string>)
    requires LoopEnabled(c, s, Sweep(timeouts, expiries))
    ensures Extends(s.hist, ApplySweep(c, s, timeouts, expiries).hist)
  {
    hide LateIds, ExpiredIds, MessagesOf, Lists;
  }

  lemma LoopExtendsHistory(c: Config, s: State, step: LoopStep)
    requires LoopEnabled(c, s, step)
    ensures Extends(s.hist, ApplyLoop(c, s, step).hist)
  {
    match step
    case Sweep(timeouts, expiries) => SweepExtendsHistory(c, s, timeouts, expiries);
    case RequeueAll =>
      hide BufferAll;
      BufferAllOnly(c, s.(redel := Worker([], Idle)), s.redel.todo);
      BufferAllExtends(c, s.(redel := Worker([], Idle)), s.redel.todo);
    case Dispatch =>
      hide BufferOne, Extends;
      BufferOneExtends(c, s.(dist := s.dist.Advance()), s.dist.todo[0]);
      assert Extends(s.hist, s.hist) by { SameExtends(s.hist); }
    case _ => hide ShutAll;
  }

  lemma SameExtends(h: History)
    ensures Extends(h, h)
  {
  }

  lemma DeliveryExtendsHistory(c: Config, s: State, who: Actor, step: DeliveryStep)
    requires DeliveryEnabled(c, s, WorkerOf(s, who), step)
    ensures Extends(s.hist, ApplyDelivery(c, s, who, step).hist)
  {
    hide NextPc, TrackSent, BufferOne;
    var w := WorkerOf(s, who);
    match step
    case Track => TrackSentExtends(c, SetWorker(s, who, w.Advance()), w.todo[0], s.table[w.pc.sub].consumerId);
    case BufferHeld => BufferOneExtends(c, SetWorker(s, who, w.Advance()), w.todo[0]);
    case _ =>
  }

  /** Nothing is ever taken out of the history. */
  lemma StepExtendsHistory(c: Config, s: State, a: Action)
    requires Enabled(c, s, a)
    ensures Extends(s.hist, Apply(c, s, a).hist)
  {
    hide Extends;
    match a
    case Called(call) => CallExtendsHistory(c, s, call);
    case Looped(step) => LoopExtendsHistory(c, s, step);
    case Delivered(who, step) => DeliveryExtendsHistory(c, s, who, step);
  }

  lemma CountExtends(ms: seq<Message>, ms': seq<Message>, m: Message)
    requires ms <= ms'
    ensures Count(ms, m) <= Count(ms', m)
  {
    assert ms' == ms + ms'[|ms|..];
    CountAppend(ms, ms'[|ms|..], m);
  }

  lemma OutcomesExtend(h: History, h': History, m: Message)
    requires Extends(h, h')
    ensures Outcomes(h, m) <= Outcomes(h', m) && Count(h.sent, m) <= Count(h'.sent, m)
    ensures m in h.acked ==> m in h'.acked
  {
    hide Count;
    CountExtends(h.sent, h'.sent, m);
    CountExtends(h.acked, h'.acked, m);
    CountExtends(h.dropped, h'.dropped, m);
    CountExtends(h.untracked, h'.untracked, m);
    CountExtends(h.expired, h'.expired, m);
    CountExtends(h.cleared, h'.cleared, m);
  }

  lemma OthersSendNothing(c: Config, s: State, who: Actor, step: DeliveryStep)
    requires DeliveryEnabled(c, s, WorkerOf(s, who), step) && !step.SendOk?
    ensures ApplyDelivery(c, s, who, step).hist.sent == s.hist.sent
  {
    hide NextPc;
  }

  lemma CallsSendNothing(c: Config, s: State, call: Call)
    requires CallEnabled(s, call)
    ensures ApplyCall(c, s, call).hist.sent == s.hist.sent
  {
    hide ShutAll, MessagesOf, Lists;
  }

  /** Only a send from somebody's hand makes a message sent once more. */
  lemma OnlyFromHand(c: Config, s: State, a: Action, m: Message)
    requires Enabled(c, s, a)
    requires a.Delivered? && a.step.SendOk? ==> WorkerOf(s, a.who).todo[0] != m
    ensures Count(Apply(c, s, a).hist.sent, m) == Count(s.hist.sent, m)
  {
    hide Count;
    match a
    case Called(call) => CallsSendNothing(c, s, call);
    case Looped(step) => LoopKeepsHistory(c, s, step);
    case Delivered(who, step) =>
      if step.SendOk? {
        CountSnoc(s.hist.sent, WorkerOf(s, who).todo[0], m);
      } else {
        OthersSendNothing(c, s, who, step);
      }
  }

  lemma SettledStepSendsNothing(c: Config, s: State, a: Action, m: Message)
    requires Ledger(s) && Enabled(c, s, a) && Outcomes(s.hist, m) >= 1
    ensures Outcomes(Apply(c, s, a).hist, m) >= 1 && Count(Apply(c, s, a).hist.sent, m) == Count(s.hist.sent, m)
    ensures m in s.hist.acked ==> m in Apply(c, s, a).hist.acked
  {
    StepExtendsHistory(c, s, a);
    hide Outcomes, Extends, Ledger, Apply;
    OutcomesExtend(s.hist, Apply(c, s, a).hist, m);
    if a.Delivered? { SettledIsNotInHand(s, a.who, m); }
    OnlyFromHand(c, s, a, m);
  }

  /** Once a message has any outcome (acked, dropped, untracked, expired or
      cleared) it keeps it and is never sent again. */
  lemma {:induction false} SettledIsNeverResent(c: Config, r: Run, i: nat, j: nat, m: Message)
    requires c.bufferSize > 0 && IsRun(c, r) && i <= j < |r.states| && Outcomes(r.states[i].hist, m) >= 1
    ensures Outcomes(r.states[j].hist, m) >= 1 && Count(r.states[j].hist.sent, m) == Count(r.states[i].hist.sent, m)
    ensures m in r.states[i].hist.acked ==> m in r.states[j].hist.acked
    decreases j - i
  {
    hide Outcomes, Apply, Enabled, Count;
    if i == j {
    } else {
      SettledIsNeverResent(c, r, i, j - 1, m);
      RunKeepsLedger(c, r, j - 1);
      assert Steps(c, r.states[j - 1], r.actions[j - 1], r.states[j]);
      SettledStepSendsNothing(c, r.states[j - 1], r.actions[j - 1], m);
    }
  }

  /** In particular, once an Ack has taken a message out of pending it stays
      acknowledged and is never sent again. */
  lemma AckedIsNeverResent(c: Config, r: Run, i: nat, j: nat, m: Message)
    requires c.bufferSize > 0 && IsRun(c, r) && i <= j < |r.states| && m in r.states[i].hist.acked
    ensures m in r.states[j].hist.acked && Count(r.states[j].hist.sent, m) == Count(r.states[i].hist.sent, m)
  {
    CountIn(r.states[i].hist.acked, m);
    SettledIsNeverResent(c, r, i, j, m);
  }

  /** In any run an Ack by another consumer, or of an ID that is not pending, leaves
      the queue as it is; an Ack by the consumer it was sent to removes exactly
      that entry. */
  lemma AckTakesOnlyItsOwn(c: Config, r: Run, i: nat, id: string, consumerId: string)
    requires IsRun(c, r) && i < |r.actions| && r.actions[i] == Called(Ack(id, consumerId))
    ensures var s, s' := r.states[i], r.states[i + 1];
            if id in s.pending && s.pending[id].consumerId == consumerId
            then s'.pending == s.pending - {id} && s'.hist.acked == s.hist.acked + [s.pending[id].message]
                 && s' == s.(pending := s'.pending, hist := s.hist.(acked := s'.hist.acked))
            else s' == s
  {
    assert Steps(c, r.states[i], r.actions[i], r.states[i + 1]);
  }
}
