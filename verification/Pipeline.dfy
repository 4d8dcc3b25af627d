/** Queue, collectors and store together, in every interleaving: what becomes of
    an accepted message, end to end. */
module Pipeline {
  import opened Domain
  import opened QueueTypes
  import opened QueueProtocol
  import opened QueueShape
  import opened QueueLedger
  import opened QueueReach
  import opened CollectorSpec
  import opened MemoryStoreSpec

  /** How far a collector is with its batch. */
  datatype Stage =
    | Gathering
    | SavingGpus(todo: set<string>)
    | SavingRecords(next: nat, done: seq<Message>)
    | Acking(done: seq<Message>, next: nat)

  /** A collector: its subscription, the name it acknowledges with, its batch. */
  datatype Consumer = Consumer(handle: nat, consumerId: string, batch: seq<Message>, stage: Stage)

  /** `saved` are the messages whose records were appended to the store, in order. */
  datatype System = System(queue: State, consumers: seq<Consumer>, gpus: map<string, Gpu>, saved: seq<Message>)

  datatype ConsumerStep =
    | Take
    | StartBatch
    | SaveGpu(uuid: string)
    | GpusDone
    | SaveNext
    | RecordsDone
    | AckNext
    | BatchDone

  datatype Move = QueueMove(a: Action) | Join(consumerId: string) | ConsumerMove(i: nat, step: ConsumerStep)

  function Start(): System {
    System(Init(), [], map[], [])
  }

  /** Only collectors receive and acknowledge. */
  predicate ByCollector(a: Action) {
    a.Called? && (a.call.TakeFrom? || a.call.Ack?)
  }

  predicate StageAllows(k: Consumer, step: ConsumerStep) {
    match step
    case Take => k.stage.Gathering?
    case StartBatch => k.stage.Gathering? && k.batch != []
    case SaveGpu(uuid) => k.stage.SavingGpus? && uuid in k.stage.todo && uuid in MergeAll(k.batch)
    case GpusDone => k.stage.SavingGpus? && k.stage.todo == {}
    case SaveNext => k.stage.SavingRecords? && k.stage.next < |k.batch|
    case RecordsDone => k.stage.SavingRecords? && k.stage.next == |k.batch|
    case AckNext => k.stage.Acking? && k.stage.next < |k.stage.done|
    case BatchDone => k.stage.Acking? && k.stage.next == |k.stage.done|
  }

  /** The queue action a step of a collector performs, if any. */
  function QueueActionOf(k: Consumer, step: ConsumerStep): Option<Action>
    requires StageAllows(k, step)
  {
    match step
    case Take => Some(Called(TakeFrom(k.handle)))
    case AckNext => Some(Called(Ack(k.stage.done[k.stage.next].id, k.consumerId)))
    case _ => None
  }

  ghost predicate CanMove(c: Config, p: System, move: Move) {
    match move
    case QueueMove(a) => Enabled(c, p.queue, a) && !ByCollector(a)
    case Join(consumerId) => Enabled(c, p.queue, Called(Subscribe(consumerId)))
    case ConsumerMove(i, step) =>
      && i < |p.consumers| && StageAllows(p.consumers[i], step)
      && var a := QueueActionOf(p.consumers[i], step); a.Some? ==> Enabled(c, p.queue, a.value)
  }

  /** What a step makes of the collector itself; `received` is what it may take. */
  function NextConsumer(k: Consumer, step: ConsumerStep, received: seq<Message>): Consumer
    requires StageAllows(k, step)
  {
    match step
    case Take => k.(batch := k.batch + received)
    case StartBatch => k.(stage := SavingGpus(MergeAll(k.batch).Keys))
    case SaveGpu(uuid) => k.(stage := SavingGpus(k.stage.todo - {uuid}))
    case GpusDone => k.(stage := SavingRecords(0, []))
    case SaveNext => k.(stage := SavingRecords(k.stage.next + 1, k.stage.done + SavedBy(k, step)))
    case RecordsDone => k.(stage := Acking(k.stage.done, 0))
    case AckNext => k.(stage := Acking(k.stage.done, k.stage.next + 1))
    case BatchDone => k.(batch := [], stage := Gathering)
  }

  /** The messages, at most one, whose records a step appends to the store. */
  function SavedBy(k: Consumer, step: ConsumerStep): seq<Message>
    requires StageAllows(k, step)
  {
    if step.SaveNext? && MessageOk(k.batch[k.stage.next]) then [k.batch[k.stage.next]] else []
  }

  function GpusAfter(gpus: map<string, Gpu>, k: Consumer, step: ConsumerStep): map<string, Gpu>
    requires StageAllows(k, step)
  {
    match step
    case SaveGpu(uuid) => gpus[uuid := MergeAll(k.batch)[uuid]]
    case _ => gpus
  }

  /** The head of a subscriber's channel. */
  function HeadOf(s: State, h: nat): seq<Message> {
    if h < |s.table| && s.table[h].channel != [] then [s.table[h].channel[0]] else []
  }

  ghost function QueueAfter(c: Config, p: System, move: Move): State
    requires CanMove(c, p, move)
  {
    match move
    case QueueMove(a) => Apply(c, p.queue, a)
    case Join(consumerId) => Apply(c, p.queue, Called(Subscribe(consumerId)))
    case ConsumerMove(i, step) =>
      var a := QueueActionOf(p.consumers[i], step);
      if a.Some? then Apply(c, p.queue, a.value) else p.queue
  }

  ghost function Moved(c: Config, p: System, move: Move): System
    requires CanMove(c, p, move)
  {
    var queue := QueueAfter(c, p, move);
    match move
    case QueueMove(_) => p.(queue := queue)
    case Join(consumerId) =>
      p.(queue := queue, consumers := p.consumers + [Consumer(|p.queue.table|, consumerId, [], Gathering)])
    case ConsumerMove(i, step) =>
      var k := p.consumers[i];
      System(queue,
             p.consumers[i := NextConsumer(k, step, HeadOf(p.queue, k.handle))],
             GpusAfter(p.gpus, k, step),
             p.saved + SavedBy(k, step))
  }

  datatype History = History(states: seq<System>, moves: seq<Move>)

  ghost predicate IsHistory(c: Config, h: History) {
    && |h.states| == |h.moves| + 1
    && h.states[0] == Start()
    && (forall i :: 0 <= i < |h.moves| ==> MovesTo(c, h.states[i], h.moves[i], h.states[i + 1]))
  }

  ghost predicate MovesTo(c: Config, p: System, move: Move, p': System) {
    CanMove(c, p, move) && p' == Moved(c, p, move)
  }

  // -------------------------------------------------------------- invariants

  ghost predicate AllIn(ms: seq<Message>, all: seq<Message>) {
    forall k :: 0 <= k < |ms| ==> ms[k] in all
  }

  /** Whatever a subscriber channel holds was accepted. */
  ghost predicate ChannelsKnown(s: State) {
    forall h :: 0 <= h < |s.table| ==> AllIn(s.table[h].channel, s.hist.accepted)
  }

  /** A collector works on accepted messages, saves GPUs before records and
      records before acknowledging. */
  ghost predicate ConsumerOk(k: Consumer, accepted: seq<Message>, gpus: set<string>, saved: seq<Message>) {
    && AllIn(k.batch, accepted)
    && match k.stage
       case Gathering => true
       case SavingGpus(todo) => MergeAll(k.batch).Keys <= gpus + todo
       case SavingRecords(_, done) =>
         MergeAll(k.batch).Keys <= gpus && AllIn(done, saved) && AllIn(done, accepted)
       case Acking(done, _) => AllIn(done, saved) && AllIn(done, accepted)
  }

  ghost predicate SavedOk(p: System) {
    && (forall m :: m in p.saved ==> MessageOk(m) && m.payload.value.gpuUuid in p.gpus)
    && (forall m :: m in p.queue.hist.acked ==> m in p.saved)
    && Named(p.gpus)
  }

  ghost predicate Named(gpus: map<string, Gpu>) {
    forall u :: u in gpus ==> gpus[u].uuid == u
  }

  ghost predicate PipelineOk(c: Config, p: System) {
    && Good(c, p.queue)
    && ChannelsKnown(p.queue)
    && SavedOk(p)
    && (forall i :: 0 <= i < |p.consumers| ==>
          ConsumerOk(p.consumers[i], p.queue.hist.accepted, p.gpus.Keys, p.saved))
  }

  // ------------------------------------------------------------ the queue side

  /** Queue steps only add to the accepted messages. */
  lemma AcceptedOnlyGrows(c: Config, s: State, a: Action)
    requires Enabled(c, s, a)
    ensures s.hist.accepted <= Apply(c, s, a).hist.accepted
    ensures !(a.Called? && a.call.Ack?) ==> Apply(c, s, a).hist.acked == s.hist.acked
  {
    match a
    case Called(call) =>
    case Looped(step) => LoopKeepsHistory(c, s, step);
    case Delivered(who, step) => DeliveryKeepsHistory(c, s, who, step);
  }

  lemma InHandIsAccepted(s: State, who: Actor)
    requires Ledger(s) && WorkerOf(s, who).todo != []
    ensures WorkerOf(s, who).todo[0] in s.hist.accepted
  {
    var m := WorkerOf(s, who).todo[0];
    assert Balanced(s, m);
    assert Count(WorkerOf(s, who).todo, m) >= 1;
    CountIn(s.hist.accepted, m);
  }

  lemma CallKeepsChannelsKnown(c: Config, s: State, call: Call)
    requires CallEnabled(s, call) && ChannelsKnown(s)
    ensures ChannelsKnown(ApplyCall(c, s, call))
  {
  }

  lemma LoopKeepsChannelsKnown(c: Config, s: State, step: LoopStep)
    requires LoopEnabled(c, s, step) && ChannelsKnown(s)
    ensures ChannelsKnown(ApplyLoop(c, s, step))
  {
    if step.RequeueAll? { BufferAllOnly(c, s.(redel := Worker([], Idle)), s.redel.todo); }
  }

  lemma DeliveryKeepsChannelsKnown(c: Config, s: State, who: Actor, step: DeliveryStep)
    requires DeliveryEnabled(c, s, WorkerOf(s, who), step) && ChannelsKnown(s) && Ledger(s)
    ensures ChannelsKnown(ApplyDelivery(c, s, who, step))
  {
    hide NextPc, Ledger;
    if step.SendOk? { InHandIsAccepted(s, who); }
  }

  lemma StepKeepsChannelsKnown(c: Config, s: State, a: Action)
    requires Enabled(c, s, a) && ChannelsKnown(s) && Ledger(s)
    ensures ChannelsKnown(Apply(c, s, a))
  {
    match a
    case Called(call) => CallKeepsChannelsKnown(c, s, call);
    case Looped(step) => LoopKeepsChannelsKnown(c, s, step);
    case Delivered(who, step) => DeliveryKeepsChannelsKnown(c, s, who, step);
  }

  lemma QueueStepKeepsQueueOk(c: Config, s: State, a: Action)
    requires Enabled(c, s, a) && Good(c, s) && ChannelsKnown(s)
    ensures var s' := Apply(c, s, a); Good(c, s') && ChannelsKnown(s') && s.hist.accepted <= s'.hist.accepted
  {
    assert Ledger(s);
    hide *;
    StepKeepsGood(c, s, a);
    StepKeepsChannelsKnown(c, s, a);
    AcceptedOnlyGrows(c, s, a);
  }

  // -------------------------------------------------------- the collector side

  lemma AllInGrows(ms: seq<Message>, all: seq<Message>, all': seq<Message>)
    requires AllIn(ms, all) && all <= all'
    ensures AllIn(ms, all')
  {
    forall k | 0 <= k < |ms| ensures ms[k] in all' {
      var j :| 0 <= j < |all| && all[j] == ms[k];
      assert all'[j] == ms[k];
    }
  }

  /** What others do never hurts a collector. */
  lemma ConsumerStaysOk(k: Consumer, accepted: seq<Message>, accepted': seq<Message>, gpus: set<string>, gpus': set<string>,
                        saved: seq<Message>, saved': seq<Message>)
    requires ConsumerOk(k, accepted, gpus, saved) && accepted <= accepted' && gpus <= gpus' && saved <= saved'
    ensures ConsumerOk(k, accepted', gpus', saved')
  {
    AllInGrows(k.batch, accepted, accepted');
    match k.stage
    case SavingRecords(_, done) => AllInGrows(done, saved, saved'); AllInGrows(done, accepted, accepted');
    case Acking(done, _) => AllInGrows(done, saved, saved'); AllInGrows(done, accepted, accepted');
    case _ =>
  }

  /** The collector that moves stays in order, too. */
  lemma MoverStaysOk(k: Consumer, step: ConsumerStep, received: seq<Message>, accepted: seq<Message>, gpus: map<string, Gpu>, saved: seq<Message>)
    requires StageAllows(k, step) && ConsumerOk(k, accepted, gpus.Keys, saved) && AllIn(received, accepted)
    ensures ConsumerOk(NextConsumer(k, step, received), accepted, GpusAfter(gpus, k, step).Keys, saved + SavedBy(k, step))
  {
    hide MergeAll;
    match step
    case SaveNext =>
      var saved' := saved + SavedBy(k, step);
      AllInGrows(k.stage.done, saved, saved');
      if MessageOk(k.batch[k.stage.next]) { assert saved'[|saved|] == k.batch[k.stage.next]; }
    case _ => assert saved + [] == saved;
  }

  lemma AckedIsSaved(c: Config, p: System, i: nat)
    requires PipelineOk(c, p) && CanMove(c, p, ConsumerMove(i, AckNext))
    ensures forall m :: m in QueueAfter(c, p, ConsumerMove(i, AckNext)).hist.acked ==> m in p.saved
  {
    var k := p.consumers[i];
    var m := k.stage.done[k.stage.next];
    assert ConsumerOk(k, p.queue.hist.accepted, p.gpus.Keys, p.saved);
    assert m in p.saved && m in p.queue.hist.accepted;
    if m.id in p.queue.pending {
      PendingIsThatMessage(p.queue, m);
    }
  }

  /** The pending entry under an accepted message's ID is that message's. */
  lemma PendingIsThatMessage(s: State, m: Message)
    requires Ledger(s) && m in s.hist.accepted && m.id in s.pending
    ensures s.pending[m.id].message == m
  {
    var x := s.pending[m.id].message;
    assert Balanced(s, x);
    CountIn(s.hist.accepted, x);
  }

  /** What a move adds to the acknowledged messages has been saved before. */
  lemma NewlyAckedIsSaved(c: Config, p: System, move: Move)
    requires PipelineOk(c, p) && CanMove(c, p, move)
    ensures forall m :: m in QueueAfter(c, p, move).hist.acked ==> m in p.saved
    ensures p.queue.hist.accepted <= QueueAfter(c, p, move).hist.accepted
  {
    hide Good, Apply, Enabled, ConsumerOk, ChannelsKnown;
    match move
    case QueueMove(a) => AcceptedOnlyGrows(c, p.queue, a);
    case Join(consumerId) => AcceptedOnlyGrows(c, p.queue, Called(Subscribe(consumerId)));
    case ConsumerMove(i, step) =>
      var a := QueueActionOf(p.consumers[i], step);
      if a.Some? { AcceptedOnlyGrows(c, p.queue, a.value); }
      if step.AckNext? { AckedIsSaved(c, p, i); }
  }

  lemma SavedByIsCovered(k: Consumer, step: ConsumerStep, accepted: seq<Message>, gpus: set<string>, saved: seq<Message>)
    requires StageAllows(k, step) && ConsumerOk(k, accepted, gpus, saved)
    ensures forall m :: m in SavedBy(k, step) ==> MessageOk(m) && m.payload.value.gpuUuid in gpus
  {
    if SavedBy(k, step) != [] {
      var m := k.batch[k.stage.next];
      assert Concerns(m, m.payload.value.gpuUuid);
      MergeKeepsFirstModel(k.batch, m.payload.value.gpuUuid);
    }
  }

  lemma GpusStayNamed(gpus: map<string, Gpu>, k: Consumer, step: ConsumerStep)
    requires StageAllows(k, step) && Named(gpus)
    ensures Named(GpusAfter(gpus, k, step))
  {
    if step.SaveGpu? { OnlyMentionedAreMerged(k.batch, step.uuid); }
  }

  lemma MoveKeepsSavedOk(c: Config, p: System, move: Move)
    requires PipelineOk(c, p) && CanMove(c, p, move)
    ensures SavedOk(Moved(c, p, move))
  {
    hide Good, QueueAfter, Enabled, ConsumerOk, ChannelsKnown, MergeAll, NextConsumer, SavedBy;
    NewlyAckedIsSaved(c, p, move);
    if move.ConsumerMove? {
      SavedByIsCovered(p.consumers[move.i], move.step, p.queue.hist.accepted, p.gpus.Keys, p.saved);
      GpusStayNamed(p.gpus, p.consumers[move.i], move.step);
    }
  }

  lemma MoveKeepsConsumers(c: Config, p: System, move: Move)
    requires PipelineOk(c, p) && CanMove(c, p, move)
    ensures var p' := Moved(c, p, move);
            forall i :: 0 <= i < |p'.consumers| ==>
              ConsumerOk(p'.consumers[i], p'.queue.hist.accepted, p'.gpus.Keys, p'.saved)
  {
    hide Good, QueueAfter, Enabled, MergeAll, ConsumerOk, NextConsumer, SavedBy;
    var p' := Moved(c, p, move);
    NewlyAckedIsSaved(c, p, move);
    forall i | 0 <= i < |p'.consumers|
      ensures ConsumerOk(p'.consumers[i], p'.queue.hist.accepted, p'.gpus.Keys, p'.saved)
    {
      if i == |p.consumers| {
        NewConsumerOk(p'.consumers[i], p'.queue.hist.accepted, p'.gpus.Keys, p'.saved);
      } else if move.ConsumerMove? && i == move.i {
        HeadIsAccepted(p.queue, p.consumers[i].handle);
        MoverStaysOk(p.consumers[i], move.step, HeadOf(p.queue, p.consumers[i].handle), p.queue.hist.accepted, p.gpus, p.saved);
        ConsumerStaysOk(p'.consumers[i], p.queue.hist.accepted, p'.queue.hist.accepted, p'.gpus.Keys, p'.gpus.Keys, p'.saved, p'.saved);
      } else {
        ConsumerStaysOk(p.consumers[i], p.queue.hist.accepted, p'.queue.hist.accepted, p.gpus.Keys, p'.gpus.Keys, p.saved, p'.saved);
      }
    }
  }

  lemma HeadIsAccepted(s: State, h: nat)
    requires ChannelsKnown(s)
    ensures AllIn(HeadOf(s, h), s.hist.accepted)
  {
    if h < |s.table| { assert AllIn(s.table[h].channel, s.hist.accepted); }
  }

  lemma NewConsumerOk(k: Consumer, accepted: seq<Message>, gpus: set<string>, saved: seq<Message>)
    requires k.batch == [] && k.stage.Gathering?
    ensures ConsumerOk(k, accepted, gpus, saved)
  {
  }

  lemma MoveKeepsQueueOk(c: Config, p: System, move: Move)
    requires PipelineOk(c, p) && CanMove(c, p, move)
    ensures var s := QueueAfter(c, p, move); Good(c, s) && ChannelsKnown(s)
  {
    hide Good, Apply, Enabled, ConsumerOk, ChannelsKnown, SavedOk;
    match move
    case QueueMove(a) => QueueStepKeepsQueueOk(c, p.queue, a);
    case Join(consumerId) => QueueStepKeepsQueueOk(c, p.queue, Called(Subscribe(consumerId)));
    case ConsumerMove(i, step) =>
      var a := QueueActionOf(p.consumers[i], step);
      if a.Some? { QueueStepKeepsQueueOk(c, p.queue, a.value); }
  }

  lemma MoveKeepsPipelineOk(c: Config, p: System, move: Move)
    requires PipelineOk(c, p) && CanMove(c, p, move)
    ensures PipelineOk(c, Moved(c, p, move))
  {
    hide Good, QueueAfter, Enabled, ConsumerOk, ChannelsKnown, SavedOk, NextConsumer, SavedBy, GpusAfter;
    MoveKeepsQueueOk(c, p, move);
    MoveKeepsSavedOk(c, p, move);
    MoveKeepsConsumers(c, p, move);
  }

  lemma {:induction false} HistoryKeepsPipelineOk(c: Config, h: History, i: nat)
    requires c.bufferSize > 0 && IsHistory(c, h) && i < |h.states|
    ensures PipelineOk(c, h.states[i])
  {
    if i == 0 {
    } else {
      HistoryKeepsPipelineOk(c, h, i - 1);
      assert MovesTo(c, h.states[i - 1], h.moves[i - 1], h.states[i]);
      MoveKeepsPipelineOk(c, h.states[i - 1], h.moves[i - 1]);
    }
  }

  // ------------------------------------------------ subscriptions and names

  lemma CallKeepsNames(c: Config, s: State, call: Call, h: nat)
    requires CallEnabled(s, call) && h < |s.table|
    ensures h < |ApplyCall(c, s, call).table| && ApplyCall(c, s, call).table[h].consumerId == s.table[h].consumerId
  {
    hide Lists, MessagesOf;
  }

  lemma LoopKeepsNames(c: Config, s: State, step: LoopStep, h: nat)
    requires LoopEnabled(c, s, step) && h < |s.table|
    ensures h < |ApplyLoop(c, s, step).table| && ApplyLoop(c, s, step).table[h].consumerId == s.table[h].consumerId
  {
    hide Lists, MessagesOf, LateIds, ExpiredIds, BufferAll;
    if step.RequeueAll? { BufferAllOnly(c, s.(redel := Worker([], Idle)), s.redel.todo); }
  }

  lemma DeliveryKeepsNames(c: Config, s: State, who: Actor, step: DeliveryStep, h: nat)
    requires DeliveryEnabled(c, s, WorkerOf(s, who), step) && h < |s.table|
    ensures var s' := ApplyDelivery(c, s, who, step); h < |s'.table| && s'.table[h].consumerId == s.table[h].consumerId
  {
    hide NextPc, TrackSent, BufferOne;
    var w := WorkerOf(s, who);
    match step
    case Track => TrackSentOnly(c, SetWorker(s, who, w.Advance()), w.todo[0], s.table[w.pc.sub].consumerId);
    case BufferHeld => BufferOneOnly(c, SetWorker(s, who, w.Advance()), w.todo[0]);
    case _ =>
  }

  lemma StepKeepsNames(c: Config, s: State, a: Action, h: nat)
    requires Enabled(c, s, a) && h < |s.table|
    ensures h < |Apply(c, s, a).table| && Apply(c, s, a).table[h].consumerId == s.table[h].consumerId
  {
    match a
    case Called(call) => CallKeepsNames(c, s, call, h);
    case Looped(step) => LoopKeepsNames(c, s, step, h);
    case Delivered(who, step) => DeliveryKeepsNames(c, s, who, step, h);
  }

  lemma MoveKeepsNames(c: Config, p: System, move: Move, h: nat)
    requires CanMove(c, p, move) && h < |p.queue.table|
    ensures var s' := Moved(c, p, move).queue; h < |s'.table| && s'.table[h].consumerId == p.queue.table[h].consumerId
  {
    hide Apply, Enabled;
    match move
    case QueueMove(a) => StepKeepsNames(c, p.queue, a, h);
    case Join(consumerId) => StepKeepsNames(c, p.queue, Called(Subscribe(consumerId)), h);
    case ConsumerMove(i, step) =>
      var a := QueueActionOf(p.consumers[i], step);
      if a.Some? { StepKeepsNames(c, p.queue, a.value, h); }
  }

  /** Every collector reads from a subscription of its own name. */
  ghost predicate Subscribed(p: System) {
    forall i :: 0 <= i < |p.consumers| ==> SubscribedAs(p, p.consumers[i])
  }

  predicate SubscribedAs(p: System, k: Consumer) {
    k.handle < |p.queue.table| && p.queue.table[k.handle].consumerId == k.consumerId
  }

  lemma MoveKeepsSubscribed(c: Config, p: System, move: Move)
    requires CanMove(c, p, move) && Subscribed(p)
    ensures Subscribed(Moved(c, p, move))
  {
    var p' := Moved(c, p, move);
    forall i | 0 <= i < |p'.consumers| ensures SubscribedAs(p', p'.consumers[i]) {
      if i < |p.consumers| {
        assert SubscribedAs(p, p.consumers[i]);
        MoveKeepsNames(c, p, move, p.consumers[i].handle);
      }
      hide Enabled, MergeAll, MessageOk;
    }
  }

  /** In every run each collector's subscription carries the name with which it
      acknowledges, so that its Acks can match the entries of its deliveries. */
  lemma {:induction false} CollectorsAckAsSubscribed(c: Config, h: History, i: nat)
    requires IsHistory(c, h) && i < |h.states|
    ensures Subscribed(h.states[i])
  {
    if i > 0 {
      CollectorsAckAsSubscribed(c, h, i - 1);
      assert MovesTo(c, h.states[i - 1], h.moves[i - 1], h.states[i]);
      MoveKeepsSubscribed(c, h.states[i - 1], h.moves[i - 1]);
    }
  }

  // ------------------------------------------------------------ main results

  /** The ways the queue can lose a message: a full backlog, a send while pending
      is full, expiry, Close, and waiting in the backlog of a queue that is closed
      for good. */
  predicate Lost(s: State, m: Message) {
    m in s.hist.dropped || m in s.hist.untracked || m in s.hist.expired || m in s.hist.cleared
    || (s.finished && m in s.backlog)
  }

  /** Held by a queue that Close has not finished with. */
  predicate Alive(s: State, m: Message) {
    !s.finished && Held(s, m) == 1
  }

  lemma InOneOfThree(c: Config, s: State, m: Message)
    requires Good(c, s) && m in s.hist.accepted
    ensures var acked, lost := m in s.hist.acked, Lost(s, m);
            && (Alive(s, m) || acked || lost) && !(Alive(s, m) && acked) && !(Alive(s, m) && lost) && !(acked && lost)
  {
    if s.finished { FinishedHoldsBacklog(c, s, m); }
    assert Balanced(s, m);
    DistinctCountsOnce(s.hist.accepted, m);
    CountIn(s.hist.accepted, m);
    CountIn(s.backlog, m);
    CountIn(s.hist.acked, m);
    CountIn(s.hist.dropped, m);
    CountIn(s.hist.untracked, m);
    CountIn(s.hist.expired, m);
    CountIn(s.hist.cleared, m);
    hide Good, Balanced;
  }

  /** End to end, every accepted message is still held by a live queue, or has been
      acknowledged with its record in the store, or is on record as lost; and it
      is only one of the three. */
  lemma AcceptedIsHeldSavedOrLost(c: Config, h: History, i: nat, m: Message)
    requires c.bufferSize > 0 && IsHistory(c, h) && i < |h.states| && m in h.states[i].queue.hist.accepted
    ensures var p := h.states[i];
            var held, acked, lost := Alive(p.queue, m), m in p.queue.hist.acked, Lost(p.queue, m);
            && (held || acked || lost) && !(held && acked) && !(held && lost) && !(acked && lost)
            && (acked ==> m in p.saved)
  {
    HistoryKeepsPipelineOk(c, h, i);
    InOneOfThree(c, h.states[i].queue, m);
  }

  /** No loss: without a full-backlog drop, an untracked send, an expiry, or a
      finished Close that clears pending or leaves a backlog behind, every accepted
      message is held by a live queue or saved. */
  lemma EndToEndNoLoss(c: Config, h: History, i: nat, m: Message)
    requires c.bufferSize > 0 && IsHistory(c, h) && i < |h.states| && m in h.states[i].queue.hist.accepted
    requires var s := h.states[i].queue;
             && s.hist.dropped == [] && s.hist.untracked == [] && s.hist.expired == [] && s.hist.cleared == []
             && (s.finished ==> s.backlog == [])
    ensures Alive(h.states[i].queue, m) || m in h.states[i].saved
  {
    AcceptedIsHeldSavedOrLost(c, h, i, m);
  }

  /** Saved before acknowledged: when a move takes a message out of pending by an
      Ack, its record is in the store already. */
  lemma SavedBeforeAcked(c: Config, h: History, i: nat, m: Message)
    requires c.bufferSize > 0 && IsHistory(c, h) && i < |h.moves|
    requires m in h.states[i + 1].queue.hist.acked
    ensures m in h.states[i].saved
  {
    HistoryKeepsPipelineOk(c, h, i);
    assert MovesTo(c, h.states[i], h.moves[i], h.states[i + 1]);
    NewlyAckedIsSaved(c, h.states[i], h.moves[i]);
  }

  /** The records the store has been given, in order. */
  function SavedRecords(p: System): seq<TelemetryRecord>
    requires forall k :: 0 <= k < |p.saved| ==> p.saved[k].payload.Some?
  {
    RecordsOf(p.saved)
  }

  /** Referential integrity: with any number of collectors at work, every UUID in
      the retained telemetry has its GPU saved. */
  lemma RetainedGpusAreSaved(c: Config, h: History, i: nat, limit: nat)
    requires c.bufferSize > 0 && IsHistory(c, h) && i < |h.states| && 1 <= limit
    ensures forall k :: 0 <= k < |h.states[i].saved| ==> h.states[i].saved[k].payload.Some?
    ensures Uuids(Retained(limit, SavedRecords(h.states[i]))) <= h.states[i].gpus.Keys
  {
    HistoryKeepsPipelineOk(c, h, i);
    var p := h.states[i];
    assert forall k :: 0 <= k < |p.saved| ==> p.saved[k] in p.saved;
    var records := SavedRecords(p);
    RetainedIsSuffix(limit, records);
    var start := |records| - RetainedLength(limit, |records|);
    forall u | u in Uuids(Retained(limit, records)) ensures u in p.gpus {
      var k :| 0 <= k < |records[start..]| && records[start..][k].gpuUuid == u;
      assert records[start + k].gpuUuid == u;
      assert p.saved[start + k] in p.saved;
    }
  }

  /** What a GPU list holds: the saved GPUs with retained telemetry. */
  ghost predicate IsGpuList(listed: seq<Gpu>, tel: seq<TelemetryRecord>, gpus: map<string, Gpu>) {
    forall g :: g in listed <==> g.uuid in Uuids(tel) && g.uuid in gpus && gpus[g.uuid] == g
  }

  /** With only collectors writing, a GPU list covers every UUID in the retained telemetry. */
  lemma ListCoversTelemetry(c: Config, h: History, i: nat, limit: nat, listed: seq<Gpu>)
    requires c.bufferSize > 0 && IsHistory(c, h) && i < |h.states| && 1 <= limit
    requires forall k :: 0 <= k < |h.states[i].saved| ==> h.states[i].saved[k].payload.Some?
    requires IsGpuList(listed, Retained(limit, SavedRecords(h.states[i])), h.states[i].gpus)
    ensures forall u :: u in Uuids(Retained(limit, SavedRecords(h.states[i]))) ==> exists g :: g in listed && g.uuid == u
  {
    RetainedGpusAreSaved(c, h, i, limit);
    HistoryKeepsPipelineOk(c, h, i);
    var p := h.states[i];
    assert Named(p.gpus);
    forall u | u in Uuids(Retained(limit, SavedRecords(p))) ensures exists g :: g in listed && g.uuid == u {
      assert p.gpus[u] in listed;
    }
  }

  lemma {:induction false} RetainedMatchIsFound(tel: seq<TelemetryRecord>, q: TelemetryQuery, r: TelemetryRecord)
    requires r in tel && q.Matches(r)
    ensures QueryCopy(r) in Scan(tel, q)
  {
    var n := |tel| - 1;
    if r in tel[..n] {
      RetainedMatchIsFound(tel[..n], q, r);
    } else {
      assert tel[n] == r;
    }
  }

  /** Acknowledged means queryable: an acknowledged message has been saved, and as
      long as a save of it is among the newest limit - e + 1, with `e` a tenth of the
      limit, every query for its GPU and a time window around it finds its record. */
  lemma AckedIsQueryable(c: Config, h: History, i: nat, m: Message, limit: nat, e: nat)
    requires e >= 1 && (limit < 10 ==> e == 1) && (limit >= 10 ==> 10 * e <= limit < 10 * e + 10)
    requires c.bufferSize > 0 && IsHistory(c, h) && i < |h.states| && m in h.states[i].queue.hist.acked
    ensures m.payload.Some? && forall k :: 0 <= k < |h.states[i].saved| ==> h.states[i].saved[k].payload.Some?
    ensures exists k :: 0 <= k < |h.states[i].saved| && h.states[i].saved[k] == m
    ensures forall k: nat, q: TelemetryQuery ::
              k < |h.states[i].saved| && h.states[i].saved[k] == m
              && |h.states[i].saved| - k <= limit - e + 1 && q.gpuUuid == m.payload.value.gpuUuid
              && (q.startTime.Some? ==> q.startTime.value <= m.payload.value.ingestionTime)
              && (q.endTime.Some? ==> m.payload.value.ingestionTime <= q.endTime.value)
              ==> m.payload.value.(gpuId := "", device := "") in Scan(Retained(limit, SavedRecords(h.states[i])), q)
  {
    HistoryKeepsPipelineOk(c, h, i);
    var p := h.states[i];
    assert m in p.saved;
    assert forall k :: 0 <= k < |p.saved| ==> p.saved[k] in p.saved;
    hide PipelineOk, IsHistory, Scan, Retained;
    var records := SavedRecords(p);
    forall k: nat, q: TelemetryQuery |
      k < |p.saved| && p.saved[k] == m
      && |p.saved| - k <= limit - e + 1 && q.gpuUuid == m.payload.value.gpuUuid
      && (q.startTime.Some? ==> q.startTime.value <= m.payload.value.ingestionTime)
      && (q.endTime.Some? ==> m.payload.value.ingestionTime <= q.endTime.value)
      ensures m.payload.value.(gpuId := "", device := "") in Scan(Retained(limit, records), q)
    {
      NewestAreKept(limit, e, records, k);
      RetainedMatchIsFound(Retained(limit, records), q, m.payload.value);
    }
  }
}
