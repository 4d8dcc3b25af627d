/** What every step keeps about the shape of the queue: bounded buffers, a
    cursor inside the subscriber list, and no lookup out of range, with the
    distributor and the redelivery loop racing on the cursor. */
module QueueShape {
  import opened Domain
  import opened QueueTypes
  import opened QueueProtocol

  ghost predicate Bounded(c: Config, s: State) {
    && |s.input| <= c.bufferSize
    && |s.backlog| <= c.MaxUndelivered()
    && |s.pending| <= c.MaxPending()
    && ChannelsBounded(c, s.table)
  }

  ghost predicate ChannelsBounded(c: Config, table: seq<Subscriber>) {
    forall h :: 0 <= h < |table| ==> |table[h].channel| <= c.bufferSize
  }

  ghost predicate HandlesOk(subscribers: seq<nat>, known: nat) {
    && (forall k :: 0 <= k < |subscribers| ==> subscribers[k] < known)
    && (forall i, j :: 0 <= i < j < |subscribers| ==> subscribers[i] != subscribers[j])
  }

  predicate CursorOk(cursor: nat, n: nat, closed: bool) {
    cursor < n || (n == 0 && (closed || cursor == 0))
  }

  /** A goroutine's position makes sense beside `n` listed subscribers out of `known`. */
  ghost predicate WorkerOk(w: Worker, n: nat, known: nat) {
    && (w.todo == [] <==> w.pc.Idle? || w.pc.Stopped?)
    && match w.pc {
         case Received => |w.todo| == 1
         case Top(attempts) => attempts < MAX_RETRIES
         case Locked(attempts, m) => attempts < MAX_RETRIES && m == n > 0
         case Clamp(_, _) => false
         case Ready(attempts, m) => attempts < MAX_RETRIES && m == n > 0
         case Looked(attempts, m, sub) => attempts < MAX_RETRIES && m == n > 0 && sub < known
         case Computed(attempts, m, sub, next) => attempts < MAX_RETRIES && m == n > next && sub < known
         case Sending(attempts, sub) => attempts < MAX_RETRIES && sub < known
         case Tracking(sub) => sub < known
         case _ => true
       }
  }

  ghost predicate Shape(c: Config, s: State) {
    && c.bufferSize > 0
    && !s.panicked
    && Bounded(c, s)
    && HandlesOk(s.subscribers, |s.table|)
    && CursorOk(s.cursor, |s.subscribers|, s.closed)
    && WorkerOk(s.dist, |s.subscribers|, |s.table|)
    && WorkerOk(s.redel, |s.subscribers|, |s.table|)
    && !s.redel.pc.Received?
    && !s.dist.pc.Requeue?
  }

  lemma {:induction false} RemoveKeepsOthers(handles: seq<nat>, h: nat)
    requires forall i, j :: 0 <= i < j < |handles| ==> handles[i] != handles[j]
    ensures var r := Remove(handles, h);
            && |r| <= |handles|
            && (h !in handles ==> r == handles)
            && (h in handles ==> |r| == |handles| - 1)
            && (forall x :: x in r <==> x in handles && x != h)
            && (forall i, j :: 0 <= i < j < |r| ==> r[i] != r[j])
  {
    if handles == [] {
    } else if handles[0] == h {
    } else {
      RemoveKeepsOthers(handles[1..], h);
      assert forall x :: x in handles <==> x == handles[0] || x in handles[1..];
      assert handles[0] !in handles[1..];
    }
  }

  lemma {:induction false} BufferAllShape(c: Config, s: State, ms: seq<Message>)
    requires |s.backlog| <= c.MaxUndelivered()
    ensures |BufferAll(c, s, ms).backlog| <= c.MaxUndelivered()
    decreases |ms|
  {
    if ms == [] {
    } else {
      BufferAllShape(c, BufferOne(c, s, ms[0]), ms[1..]);
    }
  }

  lemma SmallerMap(m: map<string, Pending>, gone: set<string>)
    ensures |m - gone| <= |m|
  {
    var kept := (m - gone).Keys;
    assert kept <= m.Keys;
    SubsetIsSmaller(kept, m.Keys);
  }

  lemma SubsetIsSmaller(a: set<string>, b: set<string>)
    requires a <= b
    ensures |a| <= |b|
  {
    assert b == a + (b - a);
  }

  // ------------------------------------------------------------------ calls

  /** A subscriber's record changes, within the capacity of its channel. */
  lemma TableUpdateKeepsShape(c: Config, s: State, h: nat, sub: Subscriber)
    requires Shape(c, s) && h < |s.table| && |sub.channel| <= c.bufferSize
    ensures Shape(c, s.(table := s.table[h := sub]))
  {
  }

  lemma CleanupKeepsShape(c: Config, s: State, h: nat)
    requires Shape(c, s) && CallEnabled(s, Cleanup(h))
    ensures Shape(c, ApplyCleanup(s, h))
  {
    RemoveKeepsOthers(s.subscribers, h);
    var s' := ApplyCleanup(s, h);
    forall k | 0 <= k < |s'.subscribers| ensures s'.subscribers[k] < |s'.table| {
      assert s'.subscribers[k] in s'.subscribers;
    }
  }

  lemma CallKeepsShape(c: Config, s: State, call: Call)
    requires Shape(c, s) && CallEnabled(s, call)
    ensures Shape(c, ApplyCall(c, s, call))
  {
    match call
    case Cleanup(h) => CleanupKeepsShape(c, s, h);
    case CancelContext(h) => TableUpdateKeepsShape(c, s, h, s.table[h].(ctxDone := true));
    case TakeFrom(h) => TableUpdateKeepsShape(c, s, h, s.table[h].(channel := s.table[h].channel[1..]));
    case Ack(id, _) => SmallerMap(s.pending, {id});
    case _ =>
  }

  // --------------------------------------------------- the goroutines' loops

  lemma SweepKeepsShape(c: Config, s: State, timeouts: seq<string>, expiries: seq<string>)
    requires Shape(c, s) && LoopEnabled(c, s, Sweep(timeouts, expiries))
    ensures Shape(c, ApplySweep(c, s, timeouts, expiries))
  {
    SmallerMap(s.pending, LateIds(c, s.pending, s.now));
    SmallerMap(s.pending - LateIds(c, s.pending, s.now), ExpiredIds(c, s.pending, s.now));
  }

  lemma LoopKeepsShape(c: Config, s: State, step: LoopStep)
    requires Shape(c, s) && LoopEnabled(c, s, step)
    ensures Shape(c, ApplyLoop(c, s, step))
  {
    match step
    case Sweep(timeouts, expiries) => SweepKeepsShape(c, s, timeouts, expiries);
    case RequeueAll =>
      BufferAllOnly(c, s.(redel := Worker([], Idle)), s.redel.todo);
      BufferAllShape(c, s.(redel := Worker([], Idle)), s.redel.todo);
    case _ =>
  }

  // --------------------------------------------------------- deliverMessage

  /** A goroutine moves on to `w` and leaves the cursor at `cursor`; all else stays. */
  lemma MoveKeepsShape(c: Config, s: State, who: Actor, w: Worker, cursor: nat)
    requires Shape(c, s) && WorkerOk(w, |s.subscribers|, |s.table|)
    requires !w.pc.Received? && !w.pc.Requeue?
    requires cursor == s.cursor || cursor < |s.subscribers|
    ensures Shape(c, SetWorker(s.(cursor := cursor), who, w))
  {
  }

  lemma NextPcIsOk(c: Config, s: State, w: Worker, step: DeliveryStep)
    requires Shape(c, s) && WorkerOk(w, |s.subscribers|, |s.table|) && DeliveryEnabled(c, s, w, step)
    requires !step.Track? && !step.BufferHeld?
    ensures WorkerOk(w.(pc := NextPc(s, w.pc, step)), |s.subscribers|, |s.table|)
    ensures !step.ClampCursor? && (step.Lookup? ==> s.cursor < |s.subscribers|)
  {
    if step.ReadCursor? { NextCursorInRange(s.cursor, w.pc.n); }
  }

  lemma NextCursorInRange(cursor: nat, n: nat)
    requires n > 0
    ensures 0 <= (cursor + 1) % n < n
  {
  }

  lemma SendKeepsShape(c: Config, s: State, who: Actor)
    requires Shape(c, s) && DeliveryEnabled(c, s, WorkerOf(s, who), SendOk)
    ensures Shape(c, ApplyDelivery(c, s, who, SendOk))
  {
    var w := WorkerOf(s, who);
    var sub := s.table[w.pc.sub];
    TableUpdateKeepsShape(c, s, w.pc.sub, sub.(channel := sub.channel + [w.todo[0]]));
    var s1 := s.(table := s.table[w.pc.sub := sub.(channel := sub.channel + [w.todo[0]])]);
    MoveKeepsShape(c, s1, who, w.(pc := Tracking(w.pc.sub)), s.cursor);
  }

  lemma SettlingKeepsShape(c: Config, s: State, who: Actor, step: DeliveryStep)
    requires Shape(c, s) && DeliveryEnabled(c, s, WorkerOf(s, who), step) && (step.Track? || step.BufferHeld?)
    ensures Shape(c, ApplyDelivery(c, s, who, step))
  {
    var w := WorkerOf(s, who);
    MoveKeepsShape(c, s, who, w.Advance(), s.cursor);
    var s1 := SetWorker(s.(cursor := s.cursor), who, w.Advance());
    if step.Track? {
      TrackSentKeepsShape(c, s1, w.todo[0], s.table[w.pc.sub].consumerId);
    } else {
      BufferOneKeepsShape(c, s1, w.todo[0]);
    }
  }

  lemma TrackSentKeepsShape(c: Config, s: State, m: Message, consumerId: string)
    requires Shape(c, s)
    ensures Shape(c, TrackSent(c, s, m, consumerId))
  {
  }

  lemma BufferOneKeepsShape(c: Config, s: State, m: Message)
    requires Shape(c, s)
    ensures Shape(c, BufferOne(c, s, m))
  {
  }

  lemma CursorMoveKeepsShape(c: Config, s: State, who: Actor, step: DeliveryStep)
    requires Shape(c, s) && DeliveryEnabled(c, s, WorkerOf(s, who), step)
    requires !step.Track? && !step.BufferHeld? && !step.SendOk?
    ensures Shape(c, ApplyDelivery(c, s, who, step))
  {
    var w := WorkerOf(s, who);
    NextPcIsOk(c, s, w, step);
    MoveKeepsShape(c, s, who, w.(pc := NextPc(s, w.pc, step)), if step.WriteCursor? then w.pc.next else s.cursor);
  }

  lemma DeliveryKeepsShape(c: Config, s: State, who: Actor, step: DeliveryStep)
    requires Shape(c, s) && DeliveryEnabled(c, s, WorkerOf(s, who), step)
    ensures Shape(c, ApplyDelivery(c, s, who, step))
  {
    match step
    case Track => SettlingKeepsShape(c, s, who, step);
    case BufferHeld => SettlingKeepsShape(c, s, who, step);
    case SendOk => SendKeepsShape(c, s, who);
    case _ => CursorMoveKeepsShape(c, s, who, step);
  }

  lemma StepKeepsShape(c: Config, s: State, a: Action)
    requires Shape(c, s) && Enabled(c, s, a)
    ensures Shape(c, Apply(c, s, a))
  {
    match a
    case Called(call) => CallKeepsShape(c, s, call);
    case Looped(step) => LoopKeepsShape(c, s, step);
    case Delivered(who, step) => DeliveryKeepsShape(c, s, who, step);
  }

  lemma {:induction false} RunKeepsShape(c: Config, r: Run, i: nat)
    requires c.bufferSize > 0 && IsRun(c, r) && i < |r.states|
    ensures Shape(c, r.states[i])
  {
    if i == 0 {
    } else {
      RunKeepsShape(c, r, i - 1);
      assert Steps(c, r.states[i - 1], r.actions[i - 1], r.states[i]);
      StepKeepsShape(c, r.states[i - 1], r.actions[i - 1]);
    }
  }

  /** In every reachable state all buffers respect their capacities, nobody has
      looked a subscriber up out of range, and whoever is about to look one up
      will find the cursor inside the list. */
  lemma BuffersBoundedAndLookupInRange(c: Config, r: Run, i: nat)
    requires c.bufferSize > 0 && IsRun(c, r) && i < |r.states|
    ensures var s := r.states[i];
            && |s.input| <= c.bufferSize && |s.backlog| <= c.bufferSize && |s.pending| <= 10 * c.bufferSize
            && forall h :: 0 <= h < |s.table| ==> |s.table[h].channel| <= c.bufferSize
    ensures !r.states[i].panicked
    ensures forall who :: WorkerOf(r.states[i], who).pc.Ready? ==> r.states[i].cursor < |r.states[i].subscribers|
  {
    RunKeepsShape(c, r, i);
  }

  /** The cursor reset inside `deliverMessage` is never needed: clean-up already
      keeps the cursor inside the list, so no run ever takes that branch. */
  lemma CursorResetIsNeverTaken(c: Config, r: Run, i: nat)
    requires c.bufferSize > 0 && IsRun(c, r) && i < |r.actions|
    ensures r.actions[i].Delivered? ==> !r.actions[i].step.ClampCursor?
  {
    RunKeepsShape(c, r, i);
    assert Steps(c, r.states[i], r.actions[i], r.states[i + 1]);
  }
}
