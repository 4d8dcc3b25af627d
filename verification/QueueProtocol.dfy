/** The work queue of pkg/mq/inmemory.go as a step relation: publishers,
    consumers, the distributor goroutine, the redelivery goroutine and the
    context clean-ups interleave freely, one lock region (or one access inside
    the shared read lock of `deliverMessage`) at a time. */
module QueueProtocol {
  import opened Domain
  import opened QueueTypes

  /** Where a delivering goroutine is. */
  datatype Pc =
    | Idle
    | Received                                              // a message taken, lock not yet held
    | Top(attempts: nat)                                    // head of the retry loop
    | Locked(attempts: nat, n: nat)                         // read lock held, subscribers counted
    | Clamp(attempts: nat, n: nat)                          // cursor found out of range
    | Ready(attempts: nat, n: nat)                          // about to look the subscriber up
    | Looked(attempts: nat, n: nat, sub: nat)               // about to read the cursor again
    | Computed(attempts: nat, n: nat, sub: nat, next: nat)  // about to write it and unlock
    | Sending(attempts: nat, sub: nat)
    | Tracking(sub: nat)                                    // sent, not yet pending
    | NoSubscribers
    | Exhausted
    | Requeue                                               // timed-out messages, no subscriber seen
    | Stopped

  /** A goroutine and the messages in its hands, the current one first. */
  datatype Worker = Worker(todo: seq<Message>, pc: Pc) {
    predicate HoldsReadLock() { pc.Locked? || pc.Clamp? || pc.Ready? || pc.Looked? || pc.Computed? }

    /** The messages in hand that still have to be sent. */
    function Unsent(): seq<Message> {
      if pc.Tracking? && todo != [] then todo[1..] else todo
    }

    /** Finished with the current message: on to the next one. */
    function Advance(): Worker
      requires todo != []
    {
      Worker(todo[1..], if |todo| == 1 then Idle else Top(0))
    }
  }

  /** What has happened so far; nothing in the queue reads it. */
  datatype History = History(
    accepted: seq<Message>,   // publishes that returned nil
    sent: seq<Message>,       // successful sends to a subscriber channel
    timedOut: seq<Message>,   // taken out of pending for redelivery
    acked: seq<Message>,      // taken out of pending by an Ack
    dropped: seq<Message>,    // met a full backlog
    untracked: seq<Message>,  // sent while pending was full
    expired: seq<Message>,    // deleted by the sweep without redelivery
    cleared: seq<Message>,    // pending when Close finished
    lastSweep: int)

  datatype State = State(
    now: int,
    input: seq<Message>,
    table: seq<Subscriber>,      // every subscriber ever created; its index is its handle
    subscribers: seq<nat>,       // handles in the subscriber list, in order
    cursor: nat,
    backlog: seq<Message>,
    pending: map<string, Pending>,
    closed: bool,
    finished: bool,
    panicked: bool,
    dist: Worker,
    redel: Worker,
    hist: History)

  datatype Actor = Distributor | Redeliverer

  /** What publishers, consumers, contexts, the clock and Close do. */
  datatype Call =
    | Publish(m: Message)
    | Tick(elapsed: nat)
    | Subscribe(consumerId: string)
    | CancelContext(sub: nat)
    | Cleanup(sub: nat)
    | TakeFrom(sub: nat)
    | Ack(id: string, consumerId: string)
    | BeginClose
    | FinishClose(ids: seq<string>)

  /** What the two goroutines do outside `deliverMessage`. */
  datatype LoopStep =
    | Receive
    | Dispatch
    | DrainStop
    | Sweep(timeouts: seq<string>, expiries: seq<string>)
    | SweepStop
    | RequeueAll

  /** What a goroutine does inside `deliverMessage`. */
  datatype DeliveryStep =
    | ReadLock
    | CheckCursor
    | ClampCursor
    | Lookup
    | ReadCursor
    | WriteCursor
    | SendOk
    | SendRefused
    | Track
    | BufferHeld

  datatype Action = Called(call: Call) | Looped(loop: LoopStep) | Delivered(who: Actor, step: DeliveryStep)

  function Init(): State {
    State(0, [], [], [], 0, [], map[], false, false, false, Worker([], Idle), Worker([], Idle),
          History([], [], [], [], [], [], [], [], 0))
  }

  function WorkerOf(s: State, who: Actor): Worker {
    if who.Distributor? then s.dist else s.redel
  }

  function SetWorker(s: State, who: Actor, w: Worker): State {
    if who.Distributor? then s.(dist := w) else s.(redel := w)
  }

  function SetPc(s: State, who: Actor, pc: Pc): State {
    SetWorker(s, who, WorkerOf(s, who).(pc := pc))
  }

  /** The write lock can be taken. */
  predicate NoReaders(s: State) {
    !s.dist.HoldsReadLock() && !s.redel.HoldsReadLock()
  }

  function Remove(handles: seq<nat>, h: nat): seq<nat> {
    if handles == [] then []
    else if handles[0] == h then handles[1..]
    else [handles[0]] + Remove(handles[1..], h)
  }

  /** Append to the backlog while it has room, drop the rest. */
  function BufferAll(c: Config, s: State, ms: seq<Message>): State
    decreases |ms|
  {
    if ms == [] then s else BufferAll(c, BufferOne(c, s, ms[0]), ms[1..])
  }

  function BufferOne(c: Config, s: State, m: Message): State {
    if |s.backlog| < c.MaxUndelivered()
    then s.(backlog := s.backlog + [m])
    else s.(hist := s.hist.(dropped := s.hist.dropped + [m]))
  }

  /** Buffering touches only the backlog and the record of drops. */
  lemma {:induction false} BufferAllOnly(c: Config, s: State, ms: seq<Message>)
    ensures var s' := BufferAll(c, s, ms);
            s' == s.(backlog := s'.backlog, hist := s.hist.(dropped := s'.hist.dropped))
    decreases |ms|
  {
    if ms == [] {
    } else {
      BufferAllOnly(c, BufferOne(c, s, ms[0]), ms[1..]);
    }
  }

  ghost predicate Enabled(c: Config, s: State, a: Action) {
    match a
    case Called(call) => CallEnabled(s, call)
    case Looped(step) => LoopEnabled(c, s, step)
    case Delivered(who, step) => DeliveryEnabled(c, s, WorkerOf(s, who), step)
  }

  ghost function Apply(c: Config, s: State, a: Action): State
    requires Enabled(c, s, a)
  {
    match a
    case Called(call) => ApplyCall(c, s, call)
    case Looped(step) => ApplyLoop(c, s, step)
    case Delivered(who, step) => ApplyDelivery(c, s, who, step)
  }

  // ------------------------------------------------------------------ calls

  ghost predicate CallEnabled(s: State, call: Call) {
    match call
    case Publish(m) => !s.closed && m.id != "" && m.payload.Some? && FreshId(s.hist.accepted, m.id)
    case Tick(_) => true
    case Subscribe(consumerId) => NoReaders(s) && !s.closed && consumerId != ""
    case CancelContext(h) => h < |s.table|
    case Cleanup(h) => NoReaders(s) && h < |s.table| && s.table[h].ctxDone
    case TakeFrom(h) => h < |s.table| && s.table[h].channel != []
    case Ack(_, _) => NoReaders(s)
    case BeginClose => NoReaders(s) && !s.closed
    case FinishClose(ids) =>
      s.closed && !s.finished && s.dist.pc.Stopped? && s.redel.pc.Stopped? && Lists(ids, s.pending.Keys)
  }

  predicate FreshId(accepted: seq<Message>, id: string) {
    forall i :: 0 <= i < |accepted| ==> accepted[i].id != id
  }

  ghost function ApplyCall(c: Config, s: State, call: Call): State
    requires CallEnabled(s, call)
  {
    match call
    case Publish(m) =>
      if |s.input| < c.bufferSize
      then s.(input := s.input + [m], hist := s.hist.(accepted := s.hist.accepted + [m]))
      else s
    case Tick(elapsed) => s.(now := s.now + elapsed)
    case Subscribe(consumerId) =>
      s.(table := s.table + [Subscriber(consumerId, [], false, false, false, false)],
         subscribers := s.subscribers + [|s.table|])
    case CancelContext(h) => s.(table := s.table[h := s.table[h].(ctxDone := true)])
    case Cleanup(h) => ApplyCleanup(s, h)
    case TakeFrom(h) => s.(table := s.table[h := s.table[h].(channel := s.table[h].channel[1..])])
    case Ack(id, consumerId) =>
      if id in s.pending && s.pending[id].consumerId == consumerId
      then s.(pending := s.pending - {id}, hist := s.hist.(acked := s.hist.acked + [s.pending[id].message]))
      else s
    case BeginClose => s.(closed := true)
    case FinishClose(ids) =>
      s.(finished := true, subscribers := [], table := ShutAll(s.table, s.subscribers), pending := map[],
         hist := s.hist.(cleared := s.hist.cleared + MessagesOf(s.pending, ids)))
  }

  /** The context clean-up: leave the list, keep the cursor inside it, shut the channel. */
  function ApplyCleanup(s: State, h: nat): State
    requires h < |s.table|
  {
    var subs := Remove(s.subscribers, h);
    s.(subscribers := subs,
       cursor := if h in s.subscribers && s.cursor >= |subs| then 0 else s.cursor,
       table := s.table[h := s.table[h].(closed := true, shut := true)])
  }

  function ShutAll(table: seq<Subscriber>, handles: seq<nat>): seq<Subscriber> {
    seq(|table|, h requires 0 <= h < |table| => if h in handles then table[h].(shut := true) else table[h])
  }

  // --------------------------------------------------- the goroutines' loops

  ghost predicate LoopEnabled(c: Config, s: State, step: LoopStep) {
    match step
    case Receive => s.dist.pc.Idle? && s.input != []
    case Dispatch => NoReaders(s) && s.dist.pc.Received? && s.dist.todo != []
    case DrainStop => NoReaders(s) && s.dist.pc.Idle? && s.closed && s.input == []
    case Sweep(timeouts, expiries) =>
      && NoReaders(s) && s.redel.pc.Idle?
      && Lists(timeouts, LateIds(c, s.pending, s.now)) && Lists(expiries, ExpiredIds(c, s.pending, s.now))
    case SweepStop => s.redel.pc.Idle? && s.closed
    case RequeueAll => NoReaders(s) && s.redel.pc.Requeue?
  }

  ghost function ApplyLoop(c: Config, s: State, step: LoopStep): State
    requires LoopEnabled(c, s, step)
  {
    match step
    case Receive => s.(input := s.input[1..], dist := Worker([s.input[0]], Received))
    case Dispatch =>
      if s.subscribers == []
      then BufferOne(c, s.(dist := s.dist.Advance()), s.dist.todo[0])
      else s.(backlog := [], dist := Worker(s.backlog + s.dist.todo, Top(0)))
    case DrainStop =>
      s.(subscribers := [], table := ShutAll(s.table, s.subscribers), dist := Worker(s.dist.todo, Stopped))
    case Sweep(timeouts, expiries) => ApplySweep(c, s, timeouts, expiries)
    case SweepStop => SetPc(s, Redeliverer, Stopped)
    case RequeueAll => BufferAll(c, s.(redel := Worker([], Idle)), s.redel.todo)
  }

  ghost function ApplySweep(c: Config, s: State, timeouts: seq<string>, expiries: seq<string>): State
    requires LoopEnabled(c, s, Sweep(timeouts, expiries))
  {
    var late := MessagesOf(s.pending, timeouts);
    s.(pending := s.pending - LateIds(c, s.pending, s.now) - ExpiredIds(c, s.pending, s.now),
       redel := Worker(late, if late == [] then Idle else if s.subscribers == [] then Requeue else Top(0)),
       hist := s.hist.(timedOut := s.hist.timedOut + late,
                       expired := s.hist.expired + MessagesOf(s.pending, expiries),
                       lastSweep := s.now))
  }

  // --------------------------------------------------------- deliverMessage

  ghost predicate DeliveryEnabled(c: Config, s: State, w: Worker, step: DeliveryStep) {
    match step
    case ReadLock => w.pc.Top?
    case CheckCursor => w.pc.Locked?
    case ClampCursor => w.pc.Clamp?
    case Lookup => w.pc.Ready?
    case ReadCursor => w.pc.Looked? && w.pc.n > 0
    case WriteCursor => w.pc.Computed?
    case SendOk =>
      && w.pc.Sending? && w.todo != [] && w.pc.sub < |s.table|
      && var sub := s.table[w.pc.sub]; !sub.closed && !sub.shut && |sub.channel| < c.bufferSize
    case SendRefused =>
      && w.pc.Sending? && w.pc.sub < |s.table|
      && var sub := s.table[w.pc.sub]; sub.closed || sub.shut || sub.ctxDone || |sub.channel| >= c.bufferSize
    case Track => NoReaders(s) && w.pc.Tracking? && w.todo != [] && w.pc.sub < |s.table|
    case BufferHeld => NoReaders(s) && (w.pc.NoSubscribers? || w.pc.Exhausted?) && w.todo != []
  }

  /** Where a step that only moves the goroutine takes it. */
  function NextPc(s: State, pc: Pc, step: DeliveryStep): Pc {
    match (step, pc)
    case (ReadLock, Top(attempts)) => if s.subscribers == [] then NoSubscribers else Locked(attempts, |s.subscribers|)
    case (CheckCursor, Locked(attempts, n)) => if s.cursor >= n then Clamp(attempts, n) else Ready(attempts, n)
    case (ClampCursor, Clamp(attempts, n)) => Ready(attempts, n)
    case (Lookup, Ready(attempts, n)) =>
      if s.cursor < |s.subscribers| then Looked(attempts, n, s.subscribers[s.cursor]) else pc
    case (ReadCursor, Looked(attempts, n, sub)) => if n > 0 then Computed(attempts, n, sub, (s.cursor + 1) % n) else pc
    case (WriteCursor, Computed(attempts, n, sub, next)) => Sending(attempts, sub)
    case (SendOk, Sending(attempts, sub)) => Tracking(sub)
    case (SendRefused, Sending(attempts, sub)) =>
      if attempts + 1 >= MAX_RETRIES then Exhausted else Top(attempts + 1)
    case _ => pc
  }

  ghost function ApplyDelivery(c: Config, s: State, who: Actor, step: DeliveryStep): State
    requires DeliveryEnabled(c, s, WorkerOf(s, who), step)
  {
    var w := WorkerOf(s, who);
    var moved := SetWorker(s, who, w.(pc := NextPc(s, w.pc, step)));
    match step
    case ReadLock => moved
    case CheckCursor => moved
    case ClampCursor => moved.(cursor := 0)
    case Lookup => if s.cursor < |s.subscribers| then moved else s.(panicked := true)
    case ReadCursor => moved
    case WriteCursor => moved.(cursor := w.pc.next)
    case SendOk =>
      var sub := s.table[w.pc.sub];
      moved.(table := s.table[w.pc.sub := sub.(channel := sub.channel + [w.todo[0]])],
             hist := s.hist.(sent := s.hist.sent + [w.todo[0]]))
    case SendRefused => moved
    case Track => TrackSent(c, SetWorker(s, who, w.Advance()), w.todo[0], s.table[w.pc.sub].consumerId)
    case BufferHeld => BufferOne(c, SetWorker(s, who, w.Advance()), w.todo[0])
  }

  function TrackSent(c: Config, s: State, m: Message, consumerId: string): State {
    if |s.pending| < c.MaxPending()
    then s.(pending := s.pending[m.id := Pending(m, consumerId, s.now)])
    else s.(hist := s.hist.(untracked := s.hist.untracked + [m]))
  }

  /** Tracking touches only pending and the record of what could not be tracked. */
  lemma TrackSentOnly(c: Config, s: State, m: Message, consumerId: string)
    ensures var s' := TrackSent(c, s, m, consumerId);
            s' == s.(pending := s'.pending, hist := s.hist.(untracked := s'.hist.untracked))
  {
  }

  lemma BufferOneOnly(c: Config, s: State, m: Message)
    ensures var s' := BufferOne(c, s, m);
            s' == s.(backlog := s'.backlog, hist := s.hist.(dropped := s'.hist.dropped)) && s.backlog <= s'.backlog
  {
  }

  // ------------------------------------------------------------------- runs

  datatype Run = Run(states: seq<State>, actions: seq<Action>)

  /** A run of the queue from its creation. */
  ghost predicate IsRun(c: Config, r: Run) {
    && |r.states| == |r.actions| + 1
    && r.states[0] == Init()
    && (forall i :: 0 <= i < |r.actions| ==> Steps(c, r.states[i], r.actions[i], r.states[i + 1]))
  }

  ghost predicate Steps(c: Config, s: State, a: Action, s': State) {
    Enabled(c, s, a) && s' == Apply(c, s, a)
  }
}
