/** What a goroutine that is left to run can reach: it finishes with the message
    in hand, and with all of them, without losing anything that is elsewhere. */
module QueueReach {
  import opened Domain
  import opened QueueTypes
  import opened QueueProtocol
  import opened QueueShape
  import opened QueueLedger
  import opened DeliveryRuns

  // --------------------------------------------------- a further invariant

  predicate OpenAt(table: seq<Subscriber>, h: nat) {
    h < |table| && !table[h].closed && !table[h].shut
  }

  /** The listed subscribers are the open ones. */
  ghost predicate OpenIsListed(table: seq<Subscriber>, handles: seq<nat>) {
    forall h :: 0 <= h < |table| ==> (OpenAt(table, h) <==> h in handles)
  }

  /** Under the read lock, whoever has looked a subscriber up has a listed one. */
  predicate SeesListed(handles: seq<nat>, pc: Pc) {
    pc.Looked? || pc.Computed? ==> pc.sub in handles
  }

  /** Goroutines stop only once the queue is closed, the distributor when it has
      drained the input channel, and Close finishes after both. */
  predicate StopsInOrder(s: State) {
    && (s.dist.pc.Stopped? ==> s.closed && s.subscribers == [] && s.input == [])
    && (s.redel.pc.Stopped? ==> s.closed)
    && (s.finished ==> s.dist.pc.Stopped? && s.redel.pc.Stopped? && s.pending == map[])
  }

  ghost predicate Listing(s: State) {
    && OpenIsListed(s.table, s.subscribers)
    && SeesListed(s.subscribers, s.dist.pc) && SeesListed(s.subscribers, s.redel.pc)
    && StopsInOrder(s)
  }

  lemma SameFlagsStayOpen(table: seq<Subscriber>, handles: seq<nat>, h: nat, sub: Subscriber)
    requires OpenIsListed(table, handles) && h < |table| && sub.closed == table[h].closed && sub.shut == table[h].shut
    ensures OpenIsListed(table[h := sub], handles)
  {
    forall k | 0 <= k < |table| ensures OpenAt(table[h := sub], k) <==> OpenAt(table, k) { }
  }

  lemma CleanupKeepsListing(s: State, h: nat)
    requires Listing(s) && HandlesOk(s.subscribers, |s.table|) && CallEnabled(s, Cleanup(h))
    ensures Listing(ApplyCleanup(s, h))
  {
    RemoveKeepsOthers(s.subscribers, h);
    var s' := ApplyCleanup(s, h);
    forall k | 0 <= k < |s'.table| ensures OpenAt(s'.table, k) <==> k in s'.subscribers {
      if k != h { assert OpenAt(s'.table, k) <==> OpenAt(s.table, k); }
    }
  }

  lemma SubscribeKeepsListing(c: Config, s: State, consumerId: string)
    requires HandlesOk(s.subscribers, |s.table|) && Listing(s) && CallEnabled(s, Subscribe(consumerId))
    ensures Listing(ApplyCall(c, s, Subscribe(consumerId)))
  {
    var s' := ApplyCall(c, s, Subscribe(consumerId));
    var n := |s.table|;
    assert s'.subscribers[|s.subscribers|] == n;
    forall k | 0 <= k < |s'.table| ensures OpenAt(s'.table, k) <==> k in s'.subscribers {
      if k < n { assert OpenAt(s'.table, k) <==> OpenAt(s.table, k); }
    }
  }

  lemma CallKeepsListing(c: Config, s: State, call: Call)
    requires Shape(c, s) && Listing(s) && CallEnabled(s, call)
    ensures Listing(ApplyCall(c, s, call))
  {
    ShapeHandles(c, s);
    hide Shape, OpenIsListed, HandlesOk;
    match call
    case Cleanup(h) => CleanupKeepsListing(s, h);
    case Subscribe(consumerId) => SubscribeKeepsListing(c, s, consumerId);
    case CancelContext(h) => SameFlagsStayOpen(s.table, s.subscribers, h, s.table[h].(ctxDone := true));
    case TakeFrom(h) => SameFlagsStayOpen(s.table, s.subscribers, h, s.table[h].(channel := s.table[h].channel[1..]));
    case FinishClose(ids) => ShutKeepsListing(s.table, s.subscribers);
    case _ =>
  }

  lemma ShapeHandles(c: Config, s: State)
    requires Shape(c, s)
    ensures HandlesOk(s.subscribers, |s.table|)
  {
  }

  lemma ShutKeepsListing(table: seq<Subscriber>, handles: seq<nat>)
    requires OpenIsListed(table, handles)
    ensures OpenIsListed(ShutAll(table, handles), [])
  {
    var table' := ShutAll(table, handles);
    forall k | 0 <= k < |table'| ensures !OpenAt(table', k) {
      assert k in handles || !OpenAt(table, k);
    }
  }

  lemma LoopKeepsListing(c: Config, s: State, step: LoopStep)
    requires Listing(s) && LoopEnabled(c, s, step)
    ensures Listing(ApplyLoop(c, s, step))
  {
    hide LateIds, ExpiredIds, MessagesOf, Lists, ShutAll, OpenIsListed, BufferAll;
    match step
    case RequeueAll => BufferAllOnly(c, s.(redel := Worker([], Idle)), s.redel.todo);
    case DrainStop => ShutKeepsListing(s.table, s.subscribers);
    case _ =>
  }

  lemma SendKeepsListing(c: Config, s: State, who: Actor)
    requires Listing(s) && DeliveryEnabled(c, s, WorkerOf(s, who), SendOk)
    ensures Listing(ApplyDelivery(c, s, who, SendOk))
  {
    var w := WorkerOf(s, who);
    var sub := s.table[w.pc.sub];
    SameFlagsStayOpen(s.table, s.subscribers, w.pc.sub, sub.(channel := sub.channel + [w.todo[0]]));
    hide OpenIsListed;
  }

  lemma SettlingKeepsListing(c: Config, s: State, who: Actor, step: DeliveryStep)
    requires Listing(s) && DeliveryEnabled(c, s, WorkerOf(s, who), step) && (step.Track? || step.BufferHeld?)
    ensures Listing(ApplyDelivery(c, s, who, step))
  {
    hide OpenIsListed, NextPc;
  }

  lemma MoveKeepsListing(c: Config, s: State, who: Actor, step: DeliveryStep)
    requires CursorOk(s.cursor, |s.subscribers|, s.closed) && WorkerOk(WorkerOf(s, who), |s.subscribers|, |s.table|)
    requires Listing(s) && DeliveryEnabled(c, s, WorkerOf(s, who), step)
    requires !step.SendOk? && !step.Track? && !step.BufferHeld?
    ensures Listing(ApplyDelivery(c, s, who, step))
  {
    hide OpenIsListed;
  }

  lemma DeliveryKeepsListing(c: Config, s: State, who: Actor, step: DeliveryStep)
    requires Shape(c, s) && Listing(s) && DeliveryEnabled(c, s, WorkerOf(s, who), step)
    ensures Listing(ApplyDelivery(c, s, who, step))
  {
    assert CursorOk(s.cursor, |s.subscribers|, s.closed) && WorkerOk(WorkerOf(s, who), |s.subscribers|, |s.table|);
    hide Shape, Listing, ApplyDelivery, DeliveryEnabled;
    if step.SendOk? {
      SendKeepsListing(c, s, who);
    } else if step.Track? || step.BufferHeld? {
      SettlingKeepsListing(c, s, who, step);
    } else {
      MoveKeepsListing(c, s, who, step);
    }
  }

  ghost predicate Good(c: Config, s: State) {
    Shape(c, s) && Ledger(s) && Listing(s)
  }

  lemma StepKeepsGood(c: Config, s: State, a: Action)
    requires Good(c, s) && Enabled(c, s, a)
    ensures Good(c, Apply(c, s, a))
  {
    hide Shape, Ledger, Listing;
    StepKeepsShape(c, s, a);
    StepKeepsLedger(c, s, a);
    match a
    case Called(call) => CallKeepsListing(c, s, call);
    case Looped(step) => LoopKeepsListing(c, s, step);
    case Delivered(who, step) => DeliveryKeepsListing(c, s, who, step);
  }

  lemma {:induction false} RunKeepsGood(c: Config, r: Run, i: nat)
    requires c.bufferSize > 0 && IsRun(c, r) && i < |r.states|
    ensures Good(c, r.states[i])
  {
    if i == 0 {
    } else {
      RunKeepsGood(c, r, i - 1);
      assert Steps(c, r.states[i - 1], r.actions[i - 1], r.states[i]);
      StepKeepsGood(c, r.states[i - 1], r.actions[i - 1]);
    }
  }

  /** When Close has finished, whatever the queue still holds lies in its backlog. */
  lemma FinishedHoldsBacklog(c: Config, s: State, m: Message)
    requires Good(c, s) && s.finished
    ensures Held(s, m) == Count(s.backlog, m)
  {
    assert s.dist.todo == [] && s.redel.todo == [];
  }

  // ------------------------------------------------------ who touches whom

  function Other(who: Actor): Actor {
    if who.Distributor? then Redeliverer else Distributor
  }

  lemma CallKeepsWorkers(c: Config, s: State, call: Call)
    requires CallEnabled(s, call)
    ensures ApplyCall(c, s, call).dist == s.dist && ApplyCall(c, s, call).redel == s.redel
  {
    hide Lists, MessagesOf, ShutAll;
  }

  lemma OtherDelivery(c: Config, s: State, step: DeliveryStep, who: Actor)
    requires DeliveryEnabled(c, s, WorkerOf(s, Other(who)), step)
    ensures WorkerOf(ApplyDelivery(c, s, Other(who), step), who) == WorkerOf(s, who)
  {
    hide NextPc;
  }

  // -------------------------------------------------------------- reaching

  ghost predicate Reaches(c: Config, s: State, s': State) {
    exists path :: Leads(c, s, path, s')
  }

  lemma ReachesItself(c: Config, s: State)
    ensures Reaches(c, s, s)
  {
    assert Leads(c, s, [], s);
  }

  lemma ReachesStep(c: Config, s: State, a: Action)
    requires Enabled(c, s, a)
    ensures Reaches(c, s, Apply(c, s, a))
  {
    LeadsOne(c, s, a);
  }

  lemma ReachesOn(c: Config, s: State, mid: State, s': State)
    requires Reaches(c, s, mid) && Reaches(c, mid, s')
    ensures Reaches(c, s, s')
  {
    var p :| Leads(c, s, p, mid);
    var q :| Leads(c, mid, q, s');
    LeadsAppend(c, s, p, mid, q, s');
  }

  lemma {:induction false} LeadsKeepsGood(c: Config, s: State, path: seq<Action>, s': State)
    requires Good(c, s) && Leads(c, s, path, s')
    ensures Good(c, s')
    decreases |path|
  {
    hide Good, Apply, Enabled;
    if path != [] {
      StepKeepsGood(c, s, path[0]);
      LeadsKeepsGood(c, Apply(c, s, path[0]), path[1..], s');
    }
  }

  /** A step that can be taken, and where it leads. */
  lemma Take(c: Config, s: State, a: Action) returns (s': State)
    requires Good(c, s) && Enabled(c, s, a)
    ensures s' == Apply(c, s, a) && Good(c, s') && Reaches(c, s, s')
  {
    s' := Apply(c, s, a);
    StepKeepsGood(c, s, a);
    ReachesStep(c, s, a);
  }

  // ------------------------------------------------ a goroutine left to run

  /** Inside `deliverMessage`. */
  predicate Delivering(pc: Pc) {
    pc.Top? || pc.Locked? || pc.Ready? || pc.Looked? || pc.Computed? || pc.Sending? || pc.Tracking?
    || pc.NoSubscribers? || pc.Exhausted?
  }

  /** What it does next; a send is made whenever it can be. */
  function NextStep(c: Config, s: State, pc: Pc): DeliveryStep {
    match pc
    case Locked(_, _) => CheckCursor
    case Ready(_, _) => Lookup
    case Looked(_, _, _) => ReadCursor
    case Computed(_, _, _, _) => WriteCursor
    case Sending(_, sub) =>
      if OpenAt(s.table, sub) && |s.table[sub].channel| < c.bufferSize then SendOk else SendRefused
    case Tracking(_) => Track
    case NoSubscribers => BufferHeld
    case Exhausted => BufferHeld
    case _ => ReadLock
  }

  /** How far it is from being done with its message. */
  function Rank(pc: Pc): nat {
    match pc
    case Top(attempts) => if attempts < MAX_RETRIES then 10 * (MAX_RETRIES - attempts) + 9 else 9
    case Locked(attempts, _) => if attempts < MAX_RETRIES then 10 * (MAX_RETRIES - attempts) + 8 else 8
    case Ready(attempts, _) => if attempts < MAX_RETRIES then 10 * (MAX_RETRIES - attempts) + 7 else 7
    case Looked(attempts, _, _) => if attempts < MAX_RETRIES then 10 * (MAX_RETRIES - attempts) + 6 else 6
    case Computed(attempts, _, _, _) => if attempts < MAX_RETRIES then 10 * (MAX_RETRIES - attempts) + 5 else 5
    case Sending(attempts, _) => if attempts < MAX_RETRIES then 10 * (MAX_RETRIES - attempts) + 4 else 4
    case _ => 1
  }

  ghost predicate Keeps(pending: map<string, Pending>, pending': map<string, Pending>) {
    forall id :: id in pending ==> id in pending' && pending'[id] == pending[id]
  }

  /** What is outside the hands of `who` is still there. */
  ghost predicate Spares(s: State, who: Actor, s': State) {
    && s'.now == s.now && s'.input == s.input && s'.subscribers == s.subscribers && s'.closed == s.closed
    && (if who.Distributor? then s'.redel == s.redel else s'.dist == s.dist)
    && s.backlog <= s'.backlog && Keeps(s.pending, s'.pending)
  }

  lemma SparesOn(s: State, who: Actor, mid: State, s': State)
    requires Spares(s, who, mid) && Spares(mid, who, s')
    ensures Spares(s, who, s')
  {
  }

  lemma NextIsEnabled(c: Config, s: State, who: Actor)
    requires Shape(c, s) && Undisturbed(s, who) && Delivering(WorkerOf(s, who).pc)
    ensures WorkerOf(s, who).todo != []
    ensures Enabled(c, s, Delivered(who, NextStep(c, s, WorkerOf(s, who).pc)))
  {
  }

  /** A step that does not settle the message brings its goroutine nearer to that. */
  lemma PcMovesOn(c: Config, s: State, w: Worker)
    requires CursorOk(s.cursor, |s.subscribers|, s.closed) && WorkerOk(w, |s.subscribers|, |s.table|)
    requires Delivering(w.pc) && !w.pc.Tracking? && !w.pc.NoSubscribers? && !w.pc.Exhausted?
    ensures var pc' := NextPc(s, w.pc, NextStep(c, s, w.pc)); Delivering(pc') && Rank(pc') < Rank(w.pc)
    ensures w.pc.Ready? ==> s.cursor < |s.subscribers|
  {
  }

  /** What a delivery step does to the goroutine that takes it. */
  lemma WorkerAfter(c: Config, s: State, who: Actor, step: DeliveryStep)
    requires DeliveryEnabled(c, s, WorkerOf(s, who), step) && (step.Lookup? ==> s.cursor < |s.subscribers|)
    ensures var w, w' := WorkerOf(s, who), WorkerOf(ApplyDelivery(c, s, who, step), who);
            w' == if step.Track? || step.BufferHeld? then w.Advance() else w.(pc := NextPc(s, w.pc, step))
  {
    hide NextPc;
  }

  lemma NextMovesOn(c: Config, s: State, who: Actor)
    requires Shape(c, s) && Undisturbed(s, who) && Delivering(WorkerOf(s, who).pc)
    requires Enabled(c, s, Delivered(who, NextStep(c, s, WorkerOf(s, who).pc))) && WorkerOf(s, who).todo != []
    ensures var w := WorkerOf(s, who);
            var w' := WorkerOf(Apply(c, s, Delivered(who, NextStep(c, s, w.pc))), who);
            w' == w.Advance() || (w'.todo == w.todo && Delivering(w'.pc) && Rank(w'.pc) < Rank(w.pc))
  {
    var w := WorkerOf(s, who);
    var step := NextStep(c, s, w.pc);
    assert CursorOk(s.cursor, |s.subscribers|, s.closed) && WorkerOk(w, |s.subscribers|, |s.table|);
    if step.Track? || step.BufferHeld? {
      hide Shape, Rank, NextPc, ApplyDelivery;
      WorkerAfter(c, s, who, step);
    } else {
      PcMovesOn(c, s, w);
      hide Shape, Rank, NextPc, ApplyDelivery;
      WorkerAfter(c, s, who, step);
    }
  }

  lemma TrackSpares(c: Config, s: State, who: Actor, m: Message, consumerId: string)
    requires WorkerOf(s, who).todo != [] && m.id !in s.pending
    ensures Spares(s, who, TrackSent(c, SetWorker(s, who, WorkerOf(s, who).Advance()), m, consumerId))
  {
  }

  lemma BufferSpares(c: Config, s: State, who: Actor, m: Message)
    requires WorkerOf(s, who).todo != []
    ensures Spares(s, who, BufferOne(c, SetWorker(s, who, WorkerOf(s, who).Advance()), m))
  {
  }

  lemma MoveSpares(c: Config, s: State, who: Actor, step: DeliveryStep)
    requires DeliveryEnabled(c, s, WorkerOf(s, who), step) && !step.Track? && !step.BufferHeld?
    ensures Spares(s, who, ApplyDelivery(c, s, who, step))
  {
    hide NextPc;
  }

  lemma NextSpares(c: Config, s: State, who: Actor)
    requires Ledger(s) && Delivering(WorkerOf(s, who).pc) && WorkerOf(s, who).todo != []
    requires Enabled(c, s, Delivered(who, NextStep(c, s, WorkerOf(s, who).pc)))
    ensures Spares(s, who, Apply(c, s, Delivered(who, NextStep(c, s, WorkerOf(s, who).pc))))
  {
    var w := WorkerOf(s, who);
    var step := NextStep(c, s, w.pc);
    hide NextPc, Spares, TrackSent, BufferOne, NextStep;
    if step.Track? {
      TrackedIsNotPending(c, s, who);
      TrackSpares(c, s, who, w.todo[0], s.table[w.pc.sub].consumerId);
    } else if step.BufferHeld? {
      BufferSpares(c, s, who, w.todo[0]);
    } else {
      MoveSpares(c, s, who, step);
    }
  }

  /** One step of a goroutine inside `deliverMessage`. */
  lemma StepOn(c: Config, s: State, who: Actor) returns (s': State)
    requires Good(c, s) && Undisturbed(s, who) && Delivering(WorkerOf(s, who).pc)
    ensures Good(c, s') && Reaches(c, s, s') && Spares(s, who, s') && WorkerOf(s, who).todo != []
    ensures var w, w' := WorkerOf(s, who), WorkerOf(s', who);
            w' == w.Advance() || (w'.todo == w.todo && Delivering(w'.pc) && Rank(w'.pc) < Rank(w.pc))
  {
    NextIsEnabled(c, s, who);
    NextMovesOn(c, s, who);
    NextSpares(c, s, who);
    hide *;
    s' := Take(c, s, Delivered(who, NextStep(c, s, WorkerOf(s, who).pc)));
  }

  /** It finishes with the message in hand. */
  lemma {:induction false} FinishHead(c: Config, s: State, who: Actor) returns (s': State)
    requires Good(c, s) && Undisturbed(s, who) && Delivering(WorkerOf(s, who).pc)
    ensures Good(c, s') && Reaches(c, s, s') && Spares(s, who, s') && WorkerOf(s, who).todo != []
    ensures WorkerOf(s', who) == WorkerOf(s, who).Advance()
    decreases Rank(WorkerOf(s, who).pc)
  {
    hide Good, Reaches, Delivering, Rank, Keeps;
    s' := StepOn(c, s, who);
    if WorkerOf(s', who) != WorkerOf(s, who).Advance() {
      var mid := s';
      s' := FinishHead(c, mid, who);
      ReachesOn(c, s, mid, s');
      SparesOn(s, who, mid, s');
    }
  }

  /** It finishes with all it has in hand. */
  lemma {:induction false} FinishAll(c: Config, s: State, who: Actor) returns (s': State)
    requires Good(c, s) && Undisturbed(s, who) && (Delivering(WorkerOf(s, who).pc) || WorkerOf(s, who).pc.Idle?)
    ensures Good(c, s') && Reaches(c, s, s') && Spares(s, who, s')
    ensures WorkerOf(s', who) == Worker([], Idle)
    decreases |WorkerOf(s, who).todo|
  {
    if WorkerOf(s, who).pc.Idle? {
      s' := s;
      ReachesItself(c, s);
    } else {
      hide Good, Reaches, Keeps;
      s' := FinishHead(c, s, who);
      if |WorkerOf(s, who).todo| > 1 {
        var mid := s';
        s' := FinishAll(c, mid, who);
        ReachesOn(c, s, mid, s');
        SparesOn(s, who, mid, s');
      }
    }
  }

  /** A step inside the read lock moves only the cursor and the goroutine. */
  lemma LockedStep(c: Config, s: State, who: Actor)
    requires Good(c, s) && WorkerOf(s, who).HoldsReadLock()
    requires Enabled(c, s, Delivered(who, NextStep(c, s, WorkerOf(s, who).pc)))
    ensures var w := WorkerOf(s, who);
            var s' := Apply(c, s, Delivered(who, NextStep(c, s, w.pc)));
            var w' := WorkerOf(s', who);
            && s' == SetWorker(s.(cursor := s'.cursor), who, w') && w'.todo == w.todo && Rank(w'.pc) < Rank(w.pc)
            && (w'.HoldsReadLock() || (w'.pc.Sending? && OpenAt(s.table, w'.pc.sub)))
  {
    var w := WorkerOf(s, who);
    assert !w.pc.Clamp?;
    PcMovesOn(c, s, w);
    assert w.pc.Computed? ==> OpenAt(s.table, w.pc.sub);
    hide Good, Rank;
  }

  lemma LockedIsEnabled(c: Config, s: State, who: Actor)
    requires Shape(c, s) && WorkerOf(s, who).HoldsReadLock()
    ensures Enabled(c, s, Delivered(who, NextStep(c, s, WorkerOf(s, who).pc)))
  {
  }

  /** A goroutine that holds the read lock lets go of it, about to send to an open subscriber. */
  lemma {:induction false} Release(c: Config, s: State, who: Actor) returns (s': State)
    requires Good(c, s)
    ensures Good(c, s') && Reaches(c, s, s') && !WorkerOf(s', who).HoldsReadLock()
    ensures !WorkerOf(s, who).HoldsReadLock() ==> s' == s
    ensures WorkerOf(s, who).HoldsReadLock() ==>
              && WorkerOf(s', who).pc.Sending? && OpenAt(s.table, WorkerOf(s', who).pc.sub)
              && WorkerOf(s', who).todo == WorkerOf(s, who).todo
              && s' == SetWorker(s.(cursor := s'.cursor), who, WorkerOf(s', who))
    decreases Rank(WorkerOf(s, who).pc)
  {
    if WorkerOf(s, who).HoldsReadLock() {
      LockedIsEnabled(c, s, who);
      LockedStep(c, s, who);
      hide Good, Reaches, Rank, Enabled, Apply, OpenAt;
      s' := Take(c, s, Delivered(who, NextStep(c, s, WorkerOf(s, who).pc)));
      if WorkerOf(s', who).HoldsReadLock() {
        var mid := s';
        s' := Release(c, mid, who);
        ReachesOn(c, s, mid, s');
      }
    } else {
      s' := s;
      ReachesItself(c, s);
    }
  }
}
