/** The other half: a message that is settled, past saving or stranded is never
    sent again; and hence exactly which messages can be sent. */
module QueueDeadEnds {
  import opened Domain
  import opened QueueTypes
  import opened QueueProtocol
  import opened QueueShape
  import opened QueueLedger
  import opened DeliveryRuns
  import opened QueueReach
  import opened QueueFate

  /** Settled, bound to be, or stranded. */
  ghost predicate Gone(c: Config, s: State, m: Message) {
    Outcomes(s.hist, m) >= 1 || PastSaving(c, s, m) || Stranded(c, s, m)
  }

  // ------------------------------------------------------- what steps can do

  lemma InOutcome(h: History, m: Message)
    requires m in h.acked || m in h.dropped || m in h.untracked || m in h.expired || m in h.cleared
    ensures Outcomes(h, m) >= 1
  {
    CountIn(h.acked, m);
    CountIn(h.dropped, m);
    CountIn(h.untracked, m);
    CountIn(h.expired, m);
    CountIn(h.cleared, m);
  }

  /** The backlog grows at its end, or is flushed by the distributor. */
  lemma BacklogGrows(c: Config, s: State, a: Action)
    requires Enabled(c, s, a)
    ensures a == Looped(Dispatch) || s.backlog <= Apply(c, s, a).backlog
  {
    match a
    case Called(call) => hide Lists, MessagesOf, ShutAll;
    case Looped(step) =>
      hide Lists, MessagesOf, LateIds, ExpiredIds, BufferAll;
      if step.RequeueAll? {
        BufferAllOnly(c, s.(redel := Worker([], Idle)), s.redel.todo);
        BufferAllExtends(c, s.(redel := Worker([], Idle)), s.redel.todo);
      }
    case Delivered(who, step) => DeliveryGrowsBacklog(c, s, who, step);
  }

  lemma DeliveryGrowsBacklog(c: Config, s: State, who: Actor, step: DeliveryStep)
    requires DeliveryEnabled(c, s, WorkerOf(s, who), step)
    ensures s.backlog <= ApplyDelivery(c, s, who, step).backlog
    ensures var s' := ApplyDelivery(c, s, who, step);
            s'.input == s.input && s'.subscribers == s.subscribers && s'.closed == s.closed
  {
    hide NextPc, TrackSent, BufferOne;
    var w := WorkerOf(s, who);
    match step
    case Track => TrackSentOnly(c, SetWorker(s, who, w.Advance()), w.todo[0], s.table[w.pc.sub].consumerId);
    case BufferHeld => BufferOneOnly(c, SetWorker(s, who, w.Advance()), w.todo[0]);
    case _ =>
  }

  /** Once closed: nobody joins, and rounds are used up one by one. */
  lemma ClosedRunsDown(c: Config, s: State, a: Action)
    requires Enabled(c, s, a) && s.closed
    ensures var s' := Apply(c, s, a);
            && s'.closed && (s.subscribers == [] ==> s'.subscribers == [])
            && Rounds(s') <= Rounds(s) && (a == Looped(Dispatch) ==> Rounds(s) == Rounds(s') + 1)
  {
    match a
    case Called(call) => ClosedCall(c, s, call);
    case Looped(step) => ClosedLoop(c, s, step);
    case Delivered(who, step) =>
      DeliveryGrowsBacklog(c, s, who, step);
      DeliveryReceivesNothing(c, s, who, step);
      hide ApplyDelivery;
  }

  lemma ClosedCall(c: Config, s: State, call: Call)
    requires CallEnabled(s, call) && s.closed
    ensures var s' := ApplyCall(c, s, call);
            s'.closed && (s.subscribers == [] ==> s'.subscribers == []) && s'.input == s.input && s'.dist == s.dist
  {
    hide Lists, MessagesOf, ShutAll;
  }

  lemma ClosedLoop(c: Config, s: State, step: LoopStep)
    requires LoopEnabled(c, s, step) && s.closed
    ensures var s' := ApplyLoop(c, s, step);
            && s'.closed && (s.subscribers == [] ==> s'.subscribers == [])
            && Rounds(s') <= Rounds(s) && (step == Dispatch ==> Rounds(s) == Rounds(s') + 1)
  {
    match step
    case Sweep(_, _) => hide Lists, MessagesOf, LateIds, ExpiredIds;
    case RequeueAll =>
      hide BufferAll;
      BufferAllOnly(c, s.(redel := Worker([], Idle)), s.redel.todo);
    case _ => hide ShutAll;
  }

  lemma DeliveryReceivesNothing(c: Config, s: State, who: Actor, step: DeliveryStep)
    requires DeliveryEnabled(c, s, WorkerOf(s, who), step)
    ensures ApplyDelivery(c, s, who, step).dist.pc.Received? ==> s.dist.pc.Received?
  {
  }

  /** Nobody opens a subscriber again. */
  lemma CallOpensNothing(c: Config, s: State, call: Call, h: nat)
    requires CallEnabled(s, call) && h < |s.table|
    ensures OpenAt(ApplyCall(c, s, call).table, h) ==> OpenAt(s.table, h)
  {
    hide Lists, MessagesOf;
  }

  lemma OpensNothing(c: Config, s: State, a: Action, h: nat)
    requires Enabled(c, s, a) && h < |s.table|
    ensures OpenAt(Apply(c, s, a).table, h) ==> OpenAt(s.table, h)
  {
    match a
    case Called(call) => CallOpensNothing(c, s, call, h);
    case Looped(step) =>
      hide Lists, MessagesOf, LateIds, ExpiredIds, BufferAll;
      if step.RequeueAll? { BufferAllOnly(c, s.(redel := Worker([], Idle)), s.redel.todo); }
    case Delivered(who, step) => DeliveryOpensNothing(c, s, who, step, h);
  }

  lemma DeliveryOpensNothing(c: Config, s: State, who: Actor, step: DeliveryStep, h: nat)
    requires DeliveryEnabled(c, s, WorkerOf(s, who), step) && h < |s.table|
    ensures OpenAt(ApplyDelivery(c, s, who, step).table, h) ==> OpenAt(s.table, h)
  {
    hide NextPc;
  }

  // --- bound to be buffered

  /** What others do leaves a goroutine inside `deliverMessage` where it is. */
  lemma OthersLeaveIt(c: Config, s: State, a: Action, who: Actor)
    requires Enabled(c, s, a) && !(a.Delivered? && a.who == who)
    requires Delivering(WorkerOf(s, who).pc)
    ensures WorkerOf(Apply(c, s, a), who) == WorkerOf(s, who)
  {
    match a
    case Called(call) =>
      hide ApplyCall;
      CallKeepsWorkers(c, s, call);
    case Looped(step) =>
      hide Lists, MessagesOf, LateIds, ExpiredIds, BufferAll, ShutAll;
      if step.RequeueAll? { BufferAllOnly(c, s.(redel := Worker([], Idle)), s.redel.todo); }
    case Delivered(other, step) =>
      hide ApplyDelivery;
      assert other == Other(who);
      OtherDelivery(c, s, step, who);
  }

  lemma BoundStays(c: Config, s: State, a: Action, who: Actor, m: Message)
    requires Shape(c, s) && Enabled(c, s, a) && !(a.Delivered? && a.who == who)
    requires BoundToBuffer(s, WorkerOf(s, who), m)
    ensures BoundToBuffer(Apply(c, s, a), WorkerOf(Apply(c, s, a), who), m)
  {
    var pc := WorkerOf(s, who).pc;
    assert WorkerOk(WorkerOf(s, who), |s.subscribers|, |s.table|);
    hide Shape, Apply, OpenAt;
    OthersLeaveIt(c, s, a, who);
    if pc.Sending? { OpensNothing(c, s, a, pc.sub); }
  }

  /** ... until it buffers or drops its message. */
  lemma BoundIsBuffered(c: Config, s: State, who: Actor, step: DeliveryStep, m: Message)
    requires DeliveryEnabled(c, s, WorkerOf(s, who), step) && BoundToBuffer(s, WorkerOf(s, who), m)
    ensures var s' := ApplyDelivery(c, s, who, step);
            || (BoundToBuffer(s', WorkerOf(s', who), m) && s'.backlog == s.backlog)
            || (|s.backlog| < c.MaxUndelivered() && m in s'.backlog)
            || (|s.backlog| >= c.MaxUndelivered() && m in s'.hist.dropped)
  {
  }

  lemma DropStays(c: Config, s: State, a: Action, m: Message)
    requires Shape(c, s) && Enabled(c, s, a) && BoundToDrop(c, s, m)
    ensures BoundToDrop(c, Apply(c, s, a), m) || m in Apply(c, s, a).hist.dropped
  {
    BacklogGrows(c, s, a);
    hide Shape;
    if a.Delivered? && a.who.Distributor? {
      BoundIsBuffered(c, s, Distributor, a.step, m);
      hide BoundToBuffer, ApplyDelivery;
    } else {
      assert a != Looped(Dispatch);
      hide Apply, Enabled;
      BoundStays(c, s, a, Distributor, m);
    }
  }

  // --- bound to expire

  lemma MessagesOfListed(pending: map<string, Pending>, ids: seq<string>, keys: set<string>, id: string)
    requires (forall x :: x in ids ==> x in pending) && Lists(ids, keys) && id in keys
    ensures pending[id].message in MessagesOf(pending, ids)
  {
    var j := MessagesOfHas(pending, ids, id);
  }

  lemma CallKeepsExpiry(c: Config, s: State, call: Call, m: Message)
    requires CallEnabled(s, call) && BoundToExpire(c, s, m)
    ensures var s' := ApplyCall(c, s, call);
            BoundToExpire(c, s', m) || m in s'.hist.acked || m in s'.hist.cleared
  {
    if call.FinishClose? { MessagesOfListed(s.pending, call.ids, s.pending.Keys, m.id); }
    hide Lists, MessagesOf, ShutAll;
  }

  lemma LoopKeepsExpiry(c: Config, s: State, step: LoopStep, m: Message)
    requires LoopEnabled(c, s, step) && BoundToExpire(c, s, m)
    ensures BoundToExpire(c, ApplyLoop(c, s, step), m) || m in ApplyLoop(c, s, step).hist.expired
  {
    match step
    case Sweep(_, expiries) =>
      MessagesOfListed(s.pending, expiries, ExpiredIds(c, s.pending, s.now), m.id);
      hide Lists, MessagesOf, LateIds, ExpiredIds;
    case RequeueAll => BufferAllOnly(c, s.(redel := Worker([], Idle)), s.redel.todo);
    case _ =>
  }

  lemma DeliveryKeepsExpiry(c: Config, s: State, who: Actor, step: DeliveryStep, m: Message)
    requires Ledger(s) && DeliveryEnabled(c, s, WorkerOf(s, who), step) && BoundToExpire(c, s, m)
    ensures BoundToExpire(c, ApplyDelivery(c, s, who, step), m)
  {
    if step.Track? { TrackedIsNotPending(c, s, who); }
    hide Ledger, NextPc;
  }

  lemma ExpiryStays(c: Config, s: State, a: Action, m: Message)
    requires Ledger(s) && Enabled(c, s, a) && BoundToExpire(c, s, m)
    ensures var s' := Apply(c, s, a);
            BoundToExpire(c, s', m) || m in s'.hist.acked || m in s'.hist.cleared || m in s'.hist.expired
  {
    hide BoundToExpire, Ledger;
    match a
    case Called(call) => CallKeepsExpiry(c, s, call, m);
    case Looped(step) => LoopKeepsExpiry(c, s, step, m);
    case Delivered(who, step) => DeliveryKeepsExpiry(c, s, who, step, m);
  }

  // --- bound to overflow

  lemma OverflowHappens(c: Config, s: State, step: LoopStep, m: Message)
    requires |s.backlog| <= c.MaxUndelivered() && LoopEnabled(c, s, step) && BoundToOverflow(c, s, m)
    ensures BoundToOverflow(c, ApplyLoop(c, s, step), m) || m in ApplyLoop(c, s, step).hist.dropped
  {
    hide Lists, MessagesOf, LateIds, ExpiredIds;
    if step.RequeueAll? {
      var j :| 0 <= j < |s.redel.todo| && s.redel.todo[j] == m;
      var first := s.redel.todo[..Least(c.MaxUndelivered(), |s.redel.todo|)];
      assert forall k :: 0 <= k < |first| ==> s.redel.todo[k] == first[k] && first[k] != m;
      BufferAllAt(c, s.(redel := Worker([], Idle)), s.redel.todo, j);
    }
  }

  lemma OverflowStays(c: Config, s: State, a: Action, m: Message)
    requires Shape(c, s) && Enabled(c, s, a) && BoundToOverflow(c, s, m)
    ensures BoundToOverflow(c, Apply(c, s, a), m) || m in Apply(c, s, a).hist.dropped
  {
    assert |s.backlog| <= c.MaxUndelivered();
    hide Shape;
    match a
    case Called(call) => hide Lists, MessagesOf, ShutAll;
    case Looped(step) => OverflowHappens(c, s, step, m);
    case Delivered(who, step) => hide NextPc, TrackSent, BufferOne;
  }

  // --- stranded

  lemma BacklogStays(c: Config, s: State, a: Action, m: Message)
    requires Enabled(c, s, a) && s.closed && StuckInBacklog(s, m)
    ensures StuckInBacklog(Apply(c, s, a), m)
  {
    BacklogGrows(c, s, a);
    ClosedRunsDown(c, s, a);
  }

  lemma InHandStays(c: Config, s: State, a: Action, m: Message)
    requires Shape(c, s) && Enabled(c, s, a) && s.closed && StuckInHand(s, m)
    ensures var s' := Apply(c, s, a); StuckInHand(s', m) || StuckInBacklog(s', m) || m in s'.hist.dropped
  {
    ClosedRunsDown(c, s, a);
    hide Shape, BoundToBuffer, Rounds;
    if a.Delivered? && a.who.Distributor? {
      BoundIsBuffered(c, s, Distributor, a.step, m);
      hide ApplyDelivery;
    } else {
      hide Apply, Enabled;
      BoundStays(c, s, a, Distributor, m);
    }
  }

  /** What a message needs to be buffered and sent is never more than before, unless
      it has been used up. */
  lemma RoundsStaySpent(c: Config, s: State, a: Action)
    requires Enabled(c, s, a) && s.closed && Rounds(s) < RoundsToBuffer(c, s)
    ensures Rounds(Apply(c, s, a)) < RoundsToBuffer(c, Apply(c, s, a))
  {
    BacklogGrows(c, s, a);
    ClosedRunsDown(c, s, a);
    hide Apply, Enabled, Rounds;
  }

  lemma AgainStays(c: Config, s: State, a: Action, m: Message)
    requires Shape(c, s) && Enabled(c, s, a) && s.closed && StuckAgain(c, s, m)
    ensures var s' := Apply(c, s, a); StuckAgain(c, s', m) || StuckInBacklog(s', m) || m in s'.hist.dropped
  {
    ClosedRunsDown(c, s, a);
    RoundsStaySpent(c, s, a);
    hide Shape, BoundToBuffer, Rounds;
    if a.Delivered? && a.who.Redeliverer? {
      BoundIsBuffered(c, s, Redeliverer, a.step, m);
      hide ApplyDelivery;
    } else {
      hide Apply, Enabled;
      BoundStays(c, s, a, Redeliverer, m);
    }
  }

  lemma BatchIsBuffered(c: Config, s: State, m: Message)
    requires |s.backlog| <= c.MaxUndelivered() && LoopEnabled(c, s, RequeueAll) && m in s.redel.todo
    ensures var s' := ApplyLoop(c, s, RequeueAll); m in s'.hist.dropped || (Fits(c, s, m) && m in s'.backlog)
  {
    var j :| 0 <= j < |s.redel.todo| && s.redel.todo[j] == m;
    BufferAllAt(c, s.(redel := Worker([], Idle)), s.redel.todo, j);
    if |s.backlog| + j < c.MaxUndelivered() {
      assert s.redel.todo[..Least(Room(c, s), |s.redel.todo|)][j] == m;
    }
  }

  /** A batch waits for its own goroutine. */
  lemma BatchWaits(c: Config, s: State, a: Action)
    requires Enabled(c, s, a) && s.redel.pc.Requeue? && a != Looped(RequeueAll)
    ensures Apply(c, s, a).redel == s.redel
  {
    match a
    case Called(call) =>
      hide ApplyCall;
      CallKeepsWorkers(c, s, call);
    case Looped(step) => hide Lists, MessagesOf, LateIds, ExpiredIds, ShutAll;
    case Delivered(who, step) =>
      hide ApplyDelivery;
      assert who == Other(Redeliverer) by { if who.Redeliverer? { assert false; } }
      OtherDelivery(c, s, step, Redeliverer);
  }

  lemma LongerBacklogFitsLess(c: Config, s: State, s': State, m: Message)
    requires s'.redel == s.redel && |s.backlog| <= |s'.backlog| && Fits(c, s', m)
    ensures Fits(c, s, m)
  {
    var todo := s.redel.todo;
    var k, k' := Least(Room(c, s), |todo|), Least(Room(c, s'), |todo|);
    assert todo[..k'] == todo[..k][..k'];
  }

  lemma BatchStays(c: Config, s: State, a: Action, m: Message)
    requires Shape(c, s) && Enabled(c, s, a) && s.closed && StuckInBatch(c, s, m)
    ensures var s' := Apply(c, s, a); StuckInBatch(c, s', m) || StuckInBacklog(s', m) || m in s'.hist.dropped
  {
    ClosedRunsDown(c, s, a);
    BacklogGrows(c, s, a);
    assert |s.backlog| <= c.MaxUndelivered();
    hide Shape, Rounds;
    if a == Looped(RequeueAll) {
      BatchIsBuffered(c, s, m);
      hide ApplyLoop, Fits;
    } else {
      BatchWaits(c, s, a);
      hide Apply, Enabled;
      var s' := Apply(c, s, a);
      if s.backlog <= s'.backlog && Fits(c, s', m) { LongerBacklogFitsLess(c, s, s', m); }
      hide Fits;
    }
  }

  // --- never swept

  lemma StoppedStays(c: Config, s: State, a: Action)
    requires Enabled(c, s, a) && s.redel.pc.Stopped?
    ensures Apply(c, s, a).redel == s.redel
  {
    match a
    case Called(call) =>
      hide ApplyCall;
      CallKeepsWorkers(c, s, call);
    case Looped(step) => hide Lists, MessagesOf, LateIds, ExpiredIds, ShutAll;
    case Delivered(who, step) =>
      hide ApplyDelivery;
      assert who == Other(Redeliverer) by { if who.Redeliverer? { assert false; } }
      OtherDelivery(c, s, step, Redeliverer);
  }

  /** Without sweeps a pending entry stays until it is acknowledged or cleared. */
  lemma EntryStays(c: Config, s: State, a: Action, m: Message)
    requires Ledger(s) && Enabled(c, s, a) && s.redel.pc.Stopped? && m.id in s.pending && s.pending[m.id].message == m
    ensures var s' := Apply(c, s, a);
            || (m.id in s'.pending && s'.pending[m.id] == s.pending[m.id])
            || m in s'.hist.acked || m in s'.hist.cleared
  {
    hide Ledger;
    match a
    case Called(call) => EntrySurvivesCall(c, s, call, m);
    case Looped(step) => hide Lists, MessagesOf, LateIds, ExpiredIds, ShutAll;
    case Delivered(who, step) =>
      hide ApplyDelivery;
      EntrySurvivesDelivery(c, s, who, step, m.id);
  }

  lemma EntrySurvivesCall(c: Config, s: State, call: Call, m: Message)
    requires CallEnabled(s, call) && m.id in s.pending && s.pending[m.id].message == m
    ensures var s' := ApplyCall(c, s, call);
            || (m.id in s'.pending && s'.pending[m.id] == s.pending[m.id])
            || m in s'.hist.acked || m in s'.hist.cleared
  {
    if call.FinishClose? { MessagesOfListed(s.pending, call.ids, s.pending.Keys, m.id); }
    hide Lists, MessagesOf, ShutAll;
  }

  lemma EntrySurvivesDelivery(c: Config, s: State, who: Actor, step: DeliveryStep, id: string)
    requires Ledger(s) && DeliveryEnabled(c, s, WorkerOf(s, who), step) && id in s.pending
    ensures id in ApplyDelivery(c, s, who, step).pending && ApplyDelivery(c, s, who, step).pending[id] == s.pending[id]
  {
    if step.Track? { TrackedIsNotPending(c, s, who); }
    hide Ledger, NextPc;
  }

  lemma TrackingMoves(c: Config, s: State, step: DeliveryStep, m: Message)
    requires DeliveryEnabled(c, s, s.dist, step) && s.dist.todo != [] && s.dist.todo[0] == m && s.dist.pc.Tracking?
    ensures var s' := ApplyDelivery(c, s, Distributor, step);
            (m.id in s'.pending && s'.pending[m.id].message == m) || m in s'.hist.untracked
  {
  }

  lemma NeverSweptStays(c: Config, s: State, a: Action, m: Message)
    requires Ledger(s) && Enabled(c, s, a) && NeverSwept(s, m)
    ensures var s' := Apply(c, s, a);
            NeverSwept(s', m) || m in s'.hist.acked || m in s'.hist.cleared || m in s'.hist.untracked
  {
    StoppedStays(c, s, a);
    if m.id in s.pending && s.pending[m.id].message == m {
      hide Apply, Enabled, Ledger;
      EntryStays(c, s, a, m);
    } else if a.Delivered? && a.who.Distributor? {
      hide Ledger, ApplyDelivery;
      TrackingMoves(c, s, a.step, m);
    } else {
      hide Apply, Enabled, Ledger;
      OthersLeaveIt(c, s, a, Distributor);
    }
  }

  /** A stranded message stays stranded, or gets an outcome. */
  lemma StrandedStays(c: Config, s: State, a: Action, m: Message)
    requires Shape(c, s) && Ledger(s) && Enabled(c, s, a) && Stranded(c, s, m)
    ensures Stranded(c, Apply(c, s, a), m) || Outcomes(Apply(c, s, a).hist, m) >= 1
  {
    ClosedRunsDown(c, s, a);
    hide Shape, Ledger, Apply, Enabled, StuckInBacklog, StuckInHand, StuckAgain, StuckInBatch, NeverSwept, Outcomes;
    if StuckInBacklog(s, m) { BacklogStays(c, s, a, m); }
    if StuckInHand(s, m) { InHandStays(c, s, a, m); }
    if StuckAgain(c, s, m) { AgainStays(c, s, a, m); }
    if StuckInBatch(c, s, m) { BatchStays(c, s, a, m); }
    if NeverSwept(s, m) { NeverSweptStays(c, s, a, m); }
    var h := Apply(c, s, a).hist;
    if m in h.acked || m in h.dropped || m in h.untracked || m in h.expired || m in h.cleared { InOutcome(h, m); }
  }

  // ------------------------------------------------------------ main results

  /** A message is in one place only. */
  lemma OnePlace(s: State, m: Message)
    requires Ledger(s)
    ensures Held(s, m) + Outcomes(s.hist, m) <= 1
  {
    assert Balanced(s, m);
    DistinctCountsOnce(s.hist.accepted, m);
  }

  /** What is gone is not about to be sent. */
  lemma GoneIsNotSent(c: Config, s: State, a: Action, m: Message)
    requires Good(c, s) && Gone(c, s, m) && Enabled(c, s, a)
    ensures Count(Apply(c, s, a).hist.sent, m) == Count(s.hist.sent, m)
  {
    if a.Delivered? && a.step.SendOk? { GoneHeadIsNot(c, s, a.who, m); }
    hide Good, Apply, Count, Outcomes;
    OnlyFromHand(c, s, a, m);
  }

  lemma GoneHeadIsNot(c: Config, s: State, who: Actor, m: Message)
    requires Good(c, s) && Gone(c, s, m) && DeliveryEnabled(c, s, WorkerOf(s, who), SendOk)
    ensures WorkerOf(s, who).todo[0] != m
  {
    OnePlace(s, m);
    assert OpenAt(s.table, WorkerOf(s, who).pc.sub);
    assert s.subscribers != [];
    CountIn(s.dist.todo, m);
    CountIn(s.redel.todo, m);
    CountIn(s.backlog, m);
    hide Good, Count, Outcomes;
  }

  lemma GoneStays(c: Config, s: State, a: Action, m: Message)
    requires Good(c, s) && Gone(c, s, m) && Enabled(c, s, a)
    ensures Gone(c, Apply(c, s, a), m)
  {
    hide Shape, Ledger, Listing, Apply, Enabled, BoundToDrop, BoundToExpire, BoundToOverflow, Stranded, Outcomes;
    var h := Apply(c, s, a).hist;
    if Outcomes(s.hist, m) >= 1 {
      SettledStepSendsNothing(c, s, a, m);
    } else {
      if BoundToDrop(c, s, m) { DropStays(c, s, a, m); }
      if BoundToExpire(c, s, m) { ExpiryStays(c, s, a, m); }
      if BoundToOverflow(c, s, m) { OverflowStays(c, s, a, m); }
      if Stranded(c, s, m) { StrandedStays(c, s, a, m); }
      if m in h.acked || m in h.dropped || m in h.untracked || m in h.expired || m in h.cleared { InOutcome(h, m); }
    }
  }

  lemma {:induction false} GoneIsNeverSent(c: Config, s: State, path: seq<Action>, s': State, m: Message)
    requires Good(c, s) && Gone(c, s, m) && Leads(c, s, path, s')
    ensures Count(s'.hist.sent, m) == Count(s.hist.sent, m)
    decreases |path|
  {
    hide Good, Gone, Apply, Enabled, Count;
    if path != [] {
      StepKeepsGood(c, s, path[0]);
      GoneIsNotSent(c, s, path[0], m);
      GoneStays(c, s, path[0], m);
      GoneIsNeverSent(c, Apply(c, s, path[0]), path[1..], s', m);
    }
  }

  lemma HeldOrSettled(c: Config, s: State, m: Message)
    requires Good(c, s) && m in s.hist.accepted
    ensures Held(s, m) + Outcomes(s.hist, m) == 1
  {
    assert Balanced(s, m);
    DistinctCountsOnce(s.hist.accepted, m);
    CountIn(s.hist.accepted, m);
  }

  lemma GoodCanSendIff(c: Config, s: State, m: Message)
    requires Good(c, s) && 0 <= c.ackTimeout < c.pendingTtl && m in s.hist.accepted
    ensures CanSend(c, s, m) <==> Held(s, m) == 1 && !PastSaving(c, s, m) && !Stranded(c, s, m)
  {
    HeldOrSettled(c, s, m);
    hide Good, Held, PastSaving, Stranded, Outcomes, Count;
    if Gone(c, s, m) {
      if CanSend(c, s, m) {
        var s' :| Reaches(c, s, s') && Count(s'.hist.sent, m) > Count(s.hist.sent, m);
        var path :| Leads(c, s, path, s');
        GoneIsNeverSent(c, s, path, s', m);
      }
    } else {
      HeldCanSend(c, s, m);
    }
  }

  /** In every state of every run, open, draining or finished: some continuation
      sends an accepted message (for the first time, or again) if and only if the
      queue holds it and it is neither past saving nor stranded by a Close. */
  lemma CanSendIff(c: Config, r: Run, i: nat, m: Message)
    requires c.bufferSize > 0 && 0 <= c.ackTimeout < c.pendingTtl
    requires IsRun(c, r) && i < |r.states| && m in r.states[i].hist.accepted
    ensures var s := r.states[i];
            CanSend(c, s, m) <==> Held(s, m) == 1 && !PastSaving(c, s, m) && !Stranded(c, s, m)
  {
    RunKeepsGood(c, r, i);
    GoodCanSendIff(c, r.states[i], m);
  }
}
