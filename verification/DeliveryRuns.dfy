/** The sequential reading of a delivery is one of the protocol's interleavings:
    from any well-shaped state a goroutine that runs undisturbed takes protocol
    steps that end exactly where the functions of RoundRobin say. */
module DeliveryRuns {
  import opened Domain
  import opened QueueTypes
  import opened QueueProtocol
  import opened QueueShape
  import opened RoundRobin
  import opened InMemoryQueue

  /** The listed subscribers, in list order. */
  function Listed(table: seq<Subscriber>, handles: seq<nat>): seq<Subscriber>
    requires forall k :: 0 <= k < |handles| ==> handles[k] < |table|
  {
    seq(|handles|, k requires 0 <= k < |handles| => table[handles[k]])
  }

  function RingOf(s: State): Ring
    requires forall k :: 0 <= k < |s.subscribers| ==> s.subscribers[k] < |s.table|
  {
    Ring(Listed(s.table, s.subscribers), s.cursor, s.backlog, s.pending)
  }

  /** The actions of `path`, one after the other, lead from `s` to `s'`. */
  ghost predicate Leads(c: Config, s: State, path: seq<Action>, s': State)
    decreases |path|
  {
    if path == [] then s == s'
    else Enabled(c, s, path[0]) && Leads(c, Apply(c, s, path[0]), path[1..], s')
  }

  lemma {:induction false} LeadsAppend(c: Config, s: State, p: seq<Action>, mid: State, q: seq<Action>, s': State)
    requires Leads(c, s, p, mid) && Leads(c, mid, q, s')
    ensures Leads(c, s, p + q, s')
    decreases |p|
  {
    if p == [] {
      assert p + q == q;
    } else {
      hide Apply, Enabled;
      LeadsAppend(c, Apply(c, s, p[0]), p[1..], mid, q, s');
      assert (p + q)[1..] == p[1..] + q;
    }
  }

  lemma LeadsOne(c: Config, s: State, a: Action)
    requires Enabled(c, s, a)
    ensures Leads(c, s, [a], Apply(c, s, a))
  {
    assert [a][1..] == [];
    assert Leads(c, Apply(c, s, a), [], Apply(c, s, a));
  }

  /** `who` may run undisturbed: the other goroutine is outside the read lock. */
  predicate Undisturbed(s: State, who: Actor) {
    if who.Distributor? then !s.redel.HoldsReadLock() else !s.dist.HoldsReadLock()
  }

  /** Nothing but the ring, `who` and the history has changed. */
  predicate Local(s: State, who: Actor, s': State) {
    && s'.now == s.now && s'.input == s.input && s'.subscribers == s.subscribers && |s'.table| == |s.table|
    && s'.closed == s.closed && s'.finished == s.finished
    && (if who.Distributor? then s'.redel == s.redel else s'.dist == s.dist)
    && s'.hist.accepted == s.hist.accepted && s'.hist.acked == s.hist.acked && s'.hist.timedOut == s.hist.timedOut
  }

  lemma LocalTransitive(s: State, who: Actor, mid: State, s': State)
    requires Local(s, who, mid) && Local(mid, who, s')
    ensures Local(s, who, s')
  {
  }

  // ------------------------------------------------------------ one attempt

  /** The first three accesses under the read lock find the subscriber under the cursor. */
  lemma FindLeads(c: Config, s: State, who: Actor) returns (path: seq<Action>, s': State)
    requires Shape(c, s) && WorkerOf(s, who).pc.Top? && s.subscribers != []
    ensures Leads(c, s, path, s') && Shape(c, s') && s.cursor < |s.subscribers|
    ensures s' == SetPc(s, who, Looked(WorkerOf(s, who).pc.attempts, |s.subscribers|, s.subscribers[s.cursor]))
  {
    assert s.cursor < |s.subscribers|;
    hide Bounded, HandlesOk, WorkerOk, Leads;
    var attempts, n := WorkerOf(s, who).pc.attempts, |s.subscribers|;
    var s1 := StepTo(c, s, who, ReadLock, Locked(attempts, n));
    var s2 := StepTo(c, s1, who, CheckCursor, Ready(attempts, n));
    s' := StepTo(c, s2, who, Lookup, Looked(attempts, n, s.subscribers[s.cursor]));
    LeadsOne(c, s2, Delivered(who, Lookup));
    path := Prepend(c, s1, who, CheckCursor, s2, [Delivered(who, Lookup)], s');
    path := Prepend(c, s, who, ReadLock, s1, path, s');
  }

  /** The other two move the cursor on. */
  lemma MoveOnLeads(c: Config, s: State, who: Actor) returns (path: seq<Action>, s': State)
    requires Shape(c, s) && WorkerOf(s, who).pc.Looked?
    ensures Leads(c, s, path, s') && Shape(c, s') && s.subscribers != []
    ensures var pc := WorkerOf(s, who).pc;
            s' == SetPc(s.(cursor := (s.cursor + 1) % |s.subscribers|), who, Sending(pc.attempts, pc.sub))
  {
    var pc := WorkerOf(s, who).pc;
    assert pc.n == |s.subscribers| > 0;
    hide Bounded, HandlesOk, Leads;
    var s1 := StepTo(c, s, who, ReadCursor, Computed(pc.attempts, pc.n, pc.sub, (s.cursor + 1) % pc.n));
    var a := Delivered(who, WriteCursor);
    StepKeepsShape(c, s1, a);
    LeadsOne(c, s1, a);
    s' := Apply(c, s1, a);
    path := Prepend(c, s, who, ReadCursor, s1, [a], s');
  }

  /** Together they pick the subscriber under the cursor. */
  lemma PickLeads(c: Config, s: State, who: Actor) returns (path: seq<Action>, s': State)
    requires Shape(c, s) && WorkerOf(s, who).pc.Top? && s.subscribers != []
    ensures Leads(c, s, path, s') && Shape(c, s') && Local(s, who, s')
    ensures var pc := WorkerOf(s, who).pc;
            s' == SetPc(s.(cursor := (s.cursor + 1) % |s.subscribers|), who, Sending(pc.attempts, s.subscribers[s.cursor]))
  {
    hide Leads, Shape;
    var find, mid := FindLeads(c, s, who);
    var move: seq<Action>;
    move, s' := MoveOnLeads(c, mid, who);
    path := find + move;
    LeadsAppend(c, s, find, mid, move, s');
  }

  /** A step inside the read lock that only moves the goroutine. */
  lemma StepTo(c: Config, s: State, who: Actor, step: DeliveryStep, pc: Pc) returns (s': State)
    requires Shape(c, s) && DeliveryEnabled(c, s, WorkerOf(s, who), step) && NextPc(s, WorkerOf(s, who).pc, step) == pc
    requires step.ReadLock? || step.CheckCursor? || (step.Lookup? && s.cursor < |s.subscribers|) || step.ReadCursor?
    ensures s' == SetPc(s, who, pc) && Enabled(c, s, Delivered(who, step)) && s' == Apply(c, s, Delivered(who, step))
    ensures Shape(c, s')
  {
    s' := SetPc(s, who, pc);
    StepKeepsShape(c, s, Delivered(who, step));
  }

  lemma Prepend(c: Config, s: State, who: Actor, step: DeliveryStep, mid: State, rest: seq<Action>, s': State)
    returns (path: seq<Action>)
    requires Enabled(c, s, Delivered(who, step)) && mid == Apply(c, s, Delivered(who, step)) && Leads(c, mid, rest, s')
    ensures Leads(c, s, path, s')
  {
    path := [Delivered(who, step)] + rest;
    assert path[1..] == rest;
  }

  /** A message sent to the subscriber at list position `i` becomes pending, and
      the goroutine goes on to its next message. */
  lemma AcceptedLeads(c: Config, s: State, who: Actor, i: nat) returns (path: seq<Action>, s': State)
    requires Shape(c, s) && Undisturbed(s, who) && WorkerOf(s, who).pc.Sending? && i < |s.subscribers|
    requires WorkerOf(s, who).pc.sub == s.subscribers[i] && Accepts(c, s.table[s.subscribers[i]])
    ensures Leads(c, s, path, s') && Shape(c, s') && Local(s, who, s')
    ensures WorkerOf(s', who) == WorkerOf(s, who).Advance()
    ensures RingOf(s') == SendTo(c, RingOf(s), i, WorkerOf(s, who).todo[0], s.now)
  {
    var send, track := Delivered(who, SendOk), Delivered(who, Track);
    StepKeepsShape(c, s, send);
    var mid := Apply(c, s, send);
    StepKeepsShape(c, mid, track);
    s' := Apply(c, mid, track);
    LeadsOne(c, s, send);
    LeadsOne(c, mid, track);
    path := [send] + [track];
    LeadsAppend(c, s, [send], mid, [track], s');
    AcceptedRing(c, s, mid, s', who, i);
  }

  lemma AcceptedRing(c: Config, s: State, mid: State, s': State, who: Actor, i: nat)
    requires HandlesOk(s.subscribers, |s.table|) && i < |s.subscribers|
    requires DeliveryEnabled(c, s, WorkerOf(s, who), SendOk) && mid == ApplyDelivery(c, s, who, SendOk)
    requires DeliveryEnabled(c, mid, WorkerOf(mid, who), Track) && s' == ApplyDelivery(c, mid, who, Track)
    requires WorkerOf(s, who).pc.sub == s.subscribers[i]
    ensures Local(s, who, s') && WorkerOf(s', who) == WorkerOf(s, who).Advance()
    ensures RingOf(s') == SendTo(c, RingOf(s), i, WorkerOf(s, who).todo[0], s.now)
  {
    ListedUpdate(s.table, s.subscribers, i, Push(s.table[s.subscribers[i]], WorkerOf(s, who).todo[0]));
  }

  /** Handles are distinct: updating one record updates one list position. */
  lemma ListedUpdate(table: seq<Subscriber>, handles: seq<nat>, i: nat, sub: Subscriber)
    requires HandlesOk(handles, |table|) && i < |handles|
    ensures Listed(table[handles[i] := sub], handles) == Listed(table, handles)[i := sub]
  {
  }

  lemma RefusedLeads(c: Config, s: State, who: Actor) returns (s': State)
    requires Shape(c, s) && WorkerOf(s, who).pc.Sending? && !Accepts(c, s.table[WorkerOf(s, who).pc.sub])
    ensures Leads(c, s, [Delivered(who, SendRefused)], s') && Shape(c, s') && Local(s, who, s')
    ensures RingOf(s') == RingOf(s)
    ensures WorkerOf(s', who).todo == WorkerOf(s, who).todo
    ensures var next := WorkerOf(s, who).pc.attempts + 1;
            WorkerOf(s', who).pc == if next >= MAX_RETRIES then Exhausted else Top(next)
  {
    var a := Delivered(who, SendRefused);
    StepKeepsShape(c, s, a);
    LeadsOne(c, s, a);
    s' := Apply(c, s, a);
  }

  lemma BufferedLeads(c: Config, s: State, who: Actor) returns (s': State)
    requires Shape(c, s) && Undisturbed(s, who) && (WorkerOf(s, who).pc.NoSubscribers? || WorkerOf(s, who).pc.Exhausted?)
    ensures Leads(c, s, [Delivered(who, BufferHeld)], s') && Shape(c, s') && Local(s, who, s')
    ensures WorkerOf(s', who) == WorkerOf(s, who).Advance()
    ensures RingOf(s') == Buffer(c, RingOf(s), WorkerOf(s, who).todo[0])
  {
    var a := Delivered(who, BufferHeld);
    StepKeepsShape(c, s, a);
    LeadsOne(c, s, a);
    s' := Apply(c, s, a);
  }

  lemma NobodyLeads(c: Config, s: State, who: Actor) returns (path: seq<Action>, s': State)
    requires Shape(c, s) && Undisturbed(s, who) && WorkerOf(s, who).pc.Top? && s.subscribers == []
    ensures Leads(c, s, path, s') && Shape(c, s') && Local(s, who, s')
    ensures WorkerOf(s', who) == WorkerOf(s, who).Advance()
    ensures RingOf(s') == Buffer(c, RingOf(s), WorkerOf(s, who).todo[0])
  {
    var a := Delivered(who, ReadLock);
    StepKeepsShape(c, s, a);
    LeadsOne(c, s, a);
    var mid := Apply(c, s, a);
    s' := BufferedLeads(c, mid, who);
    path := [a] + [Delivered(who, BufferHeld)];
    LeadsAppend(c, s, [a], mid, [Delivered(who, BufferHeld)], s');
  }

  // ------------------------------------------------------------ one delivery

  /** One attempt: an accepted message ends the delivery, a refusal is one more. */
  lemma AttemptLeads(c: Config, s: State, who: Actor) returns (path: seq<Action>, s': State, sent: bool)
    requires Shape(c, s) && Undisturbed(s, who) && WorkerOf(s, who).pc.Top? && s.subscribers != []
    ensures Leads(c, s, path, s') && Shape(c, s') && Local(s, who, s') && s.cursor < |s.subscribers|
    ensures sent == Accepts(c, RingOf(s).subs[s.cursor])
    ensures var ring := RingOf(s).(cursor := (s.cursor + 1) % |s.subscribers|);
            RingOf(s') == if sent then SendTo(c, ring, s.cursor, WorkerOf(s, who).todo[0], s.now) else ring
    ensures sent ==> WorkerOf(s', who) == WorkerOf(s, who).Advance()
    ensures !sent ==> WorkerOf(s', who) == WorkerOf(s, who).(pc := AfterRefusal(WorkerOf(s, who).pc.attempts))
  {
    var pick, s1 := PickLeads(c, s, who);
    hide Leads, WorkerOk, Bounded;
    var rest: seq<Action>;
    sent := Accepts(c, RingOf(s).subs[s.cursor]);
    if sent {
      rest, s' := AcceptedLeads(c, s1, who, s.cursor);
    } else {
      s' := RefusedLeads(c, s1, who);
      rest := [Delivered(who, SendRefused)];
    }
    path := pick + rest;
    LeadsAppend(c, s, pick, s1, rest, s');
  }

  function AfterRefusal(attempts: nat): Pc {
    if attempts + 1 >= MAX_RETRIES then Exhausted else Top(attempts + 1)
  }

  /** What one attempt means for the search for the first acceptance. */
  lemma SearchGoesOn(c: Config, s: State, ring: Ring, attempts: nat, m: Message)
    requires Shape(c, s) && s.subscribers != [] && attempts < MAX_RETRIES
    requires RingOf(s) == ring.(cursor := s.cursor) && Refused(c, ring, attempts, s.cursor)
    ensures s.cursor < |s.subscribers| == |ring.subs| && RingOf(s).subs == ring.subs
    ensures var next := (s.cursor + 1) % |s.subscribers|;
            && RingOf(s).(cursor := next) == ring.(cursor := next)
            && (if Accepts(c, ring.subs[s.cursor])
                then Deliver(c, ring, m, s.now) == SendTo(c, ring.(cursor := next), s.cursor, m, s.now)
                else Refused(c, ring, attempts + 1, next))
  {
    hide Deliver, Refused, Refusals, SendTo, Accepts;
    OneMoreAttempt(c, ring, attempts, s.cursor, m, s.now);
  }

  /** `who` searches for the first acceptance on `ring`, and has been refused so far. */
  ghost predicate Searching(c: Config, s: State, who: Actor, ring: Ring) {
    && Shape(c, s) && Undisturbed(s, who) && WorkerOf(s, who).pc.Top? && WorkerOf(s, who).pc.attempts < MAX_RETRIES
    && RingOf(s) == ring.(cursor := s.cursor) && Refused(c, ring, WorkerOf(s, who).pc.attempts, s.cursor)
  }

  /** `who` is done with its message, as `Deliver` says. */
  ghost predicate Found(c: Config, s: State, who: Actor, ring: Ring, s': State) {
    && Shape(c, s') && WorkerOf(s, who).todo != [] && WorkerOf(s', who) == WorkerOf(s, who).Advance()
    && RingOf(s') == Deliver(c, ring, WorkerOf(s, who).todo[0], s.now)
  }

  /** Nobody to ask: the search is over. */
  lemma NobodyFound(c: Config, s: State, who: Actor, ring: Ring) returns (path: seq<Action>, s': State)
    requires Searching(c, s, who, ring) && s.subscribers == []
    ensures Leads(c, s, path, s') && Local(s, who, s') && Found(c, s, who, ring, s')
  {
    hide Leads, Deliver, Refused;
    NobodyToAsk(c, ring, WorkerOf(s, who).pc.attempts, s.cursor, WorkerOf(s, who).todo[0], s.now);
    path, s' := NobodyLeads(c, s, who);
  }

  /** `who` has been refused to the end. */
  ghost predicate OutOfAttempts(c: Config, s: State, who: Actor, ring: Ring) {
    && Shape(c, s) && Undisturbed(s, who) && WorkerOf(s, who).pc.Exhausted?
    && RingOf(s) == ring.(cursor := s.cursor) && ring.subs != [] && Refused(c, ring, MAX_RETRIES, s.cursor)
  }

  /** Still at the same message, at the same time. */
  predicate SameMessage(s: State, who: Actor, s': State) {
    WorkerOf(s', who).todo == WorkerOf(s, who).todo && s'.now == s.now
  }

  /** One attempt ends the search or brings it one refusal further. */
  lemma SearchOn(c: Config, s: State, who: Actor, ring: Ring, left: nat) returns (path: seq<Action>, s': State)
    requires Searching(c, s, who, ring) && s.subscribers != [] && left == MAX_RETRIES - WorkerOf(s, who).pc.attempts
    ensures Leads(c, s, path, s') && Local(s, who, s')
    ensures || Found(c, s, who, ring, s')
            || (OutOfAttempts(c, s', who, ring) && SameMessage(s, who, s'))
            || (Searching(c, s', who, ring) && SameMessage(s, who, s') && left - 1 == MAX_RETRIES - WorkerOf(s', who).pc.attempts)
  {
    hide Leads, Deliver, Refused, Refusals, Accepts, SendTo;
    assert WorkerOf(s, who).todo != [];
    SearchGoesOn(c, s, ring, WorkerOf(s, who).pc.attempts, WorkerOf(s, who).todo[0]);
    hide Shape;
    var sent;
    path, s', sent := AttemptLeads(c, s, who);
  }

  lemma FoundLater(c: Config, s: State, who: Actor, ring: Ring, mid: State, s': State)
    requires SameMessage(s, who, mid) && Found(c, mid, who, ring, s')
    ensures Found(c, s, who, ring, s')
  {
    hide Deliver;
  }

  lemma ExhaustedFound(c: Config, s: State, who: Actor, ring: Ring) returns (path: seq<Action>, s': State)
    requires OutOfAttempts(c, s, who, ring)
    ensures Leads(c, s, path, s') && Local(s, who, s') && Found(c, s, who, ring, s')
  {
    hide Deliver, Refused, Leads;
    EverybodyRefused(c, ring, s.cursor, WorkerOf(s, who).todo[0], s.now);
    s' := BufferedLeads(c, s, who);
    path := [Delivered(who, BufferHeld)];
  }

  /** After some refusals, the rest of the delivery of the message in hand. */
  lemma {:induction false} SearchEnds(c: Config, s: State, who: Actor, ring: Ring, left: nat) returns (path: seq<Action>, s': State)
    requires Searching(c, s, who, ring) && left == MAX_RETRIES - WorkerOf(s, who).pc.attempts
    ensures Leads(c, s, path, s') && Local(s, who, s') && Found(c, s, who, ring, s')
    decreases left
  {
    assert left > 0;
    hide Leads, Found, Searching, OutOfAttempts, Local, SameMessage;
    if s.subscribers == [] {
      path, s' := NobodyFound(c, s, who, ring);
    } else {
      var mid: State;
      path, mid := SearchOn(c, s, who, ring, left);
      s' := mid;
      if !Found(c, s, who, ring, mid) {
        var tail: seq<Action>;
        if OutOfAttempts(c, mid, who, ring) {
          tail, s' := ExhaustedFound(c, mid, who, ring);
        } else {
          tail, s' := SearchEnds(c, mid, who, ring, left - 1);
        }
        FoundLater(c, s, who, ring, mid, s');
        LeadsAppend(c, s, path, mid, tail, s');
        LocalTransitive(s, who, mid, s');
        path := path + tail;
      }
    }
  }

  /** A whole `deliverMessage`: protocol steps lead to what `Deliver` computes. */
  lemma DeliveryLeads(c: Config, s: State, who: Actor) returns (path: seq<Action>, s': State)
    requires Shape(c, s) && Undisturbed(s, who) && WorkerOf(s, who).pc == Top(0)
    ensures Leads(c, s, path, s') && Shape(c, s') && Local(s, who, s')
    ensures WorkerOf(s', who) == WorkerOf(s, who).Advance()
    ensures RingOf(s') == Deliver(c, RingOf(s), WorkerOf(s, who).todo[0], s.now)
  {
    NoAttemptYet(c, RingOf(s));
    path, s' := SearchEnds(c, s, who, RingOf(s), MAX_RETRIES);
  }

  /** A whole batch in hand, as after a flush or a sweep. */
  lemma {:induction false} BatchLeads(c: Config, s: State, who: Actor) returns (path: seq<Action>, s': State)
    requires Shape(c, s) && Undisturbed(s, who) && WorkerOf(s, who).pc == Top(0)
    ensures Leads(c, s, path, s') && Shape(c, s') && Local(s, who, s')
    ensures WorkerOf(s', who) == Worker([], Idle)
    ensures RingOf(s') == DeliverAll(c, RingOf(s), WorkerOf(s, who).todo, s.now)
    decreases |WorkerOf(s, who).todo|
  {
    hide Leads, Deliver;
    var w := WorkerOf(s, who);
    var first, mid := DeliveryLeads(c, s, who);
    if |w.todo| == 1 {
      path, s' := first, mid;
      assert DeliverAll(c, RingOf(s'), w.todo[1..], s.now) == RingOf(s');
    } else {
      var rest: seq<Action>;
      rest, s' := BatchLeads(c, mid, who);
      path := first + rest;
      LeadsAppend(c, s, first, mid, rest, s');
      LocalTransitive(s, who, mid, s');
    }
  }

  /** The distributor's round for one message, from the moment it has taken it
      out of the input channel: protocol steps lead to what `Distribute` computes. */
  lemma DispatchLeads(c: Config, s: State) returns (path: seq<Action>, s': State)
    requires Shape(c, s) && NoReaders(s) && s.dist.pc.Received?
    ensures Leads(c, s, path, s') && Shape(c, s') && Local(s, Distributor, s')
    ensures s'.dist == Worker([], Idle)
    ensures RingOf(s') == Distribute(c, RingOf(s), s.dist.todo[0], s.now)
  {
    hide Deliver;
    var a := Looped(Dispatch);
    StepKeepsShape(c, s, a);
    LeadsOne(c, s, a);
    var mid := Apply(c, s, a);
    if s.subscribers == [] {
      path, s' := [a], mid;
    } else {
      assert s.dist.todo == [s.dist.todo[0]];
      var rest: seq<Action>;
      rest, s' := BatchLeads(c, mid, Distributor);
      path := [a] + rest;
      LeadsAppend(c, s, [a], mid, rest, s');
      LocalTransitive(s, Distributor, mid, s');
    }
  }

  lemma ReceiveLeads(c: Config, s: State) returns (s': State)
    requires Shape(c, s) && s.dist.pc.Idle? && s.input != []
    ensures Leads(c, s, [Looped(Receive)], s') && Shape(c, s')
    ensures s' == s.(input := s.input[1..], dist := Worker([s.input[0]], Received)) && RingOf(s') == RingOf(s)
  {
    var a := Looped(Receive);
    StepKeepsShape(c, s, a);
    LeadsOne(c, s, a);
    s' := Apply(c, s, a);
  }

  /** All of the input channel, round after round: protocol steps lead, from the
      state's own ring, to what `DistributeAll` computes. */
  lemma {:induction false} InputLeads(c: Config, s: State) returns (path: seq<Action>, s': State)
    requires Shape(c, s) && NoReaders(s) && s.dist.pc.Idle?
    ensures Leads(c, s, path, s') && Shape(c, s') && NoReaders(s')
    ensures s'.input == [] && s'.dist.pc.Idle? && s'.redel == s.redel && s'.subscribers == s.subscribers && s'.now == s.now
    ensures RingOf(s') == DistributeAll(c, RingOf(s), s.input, s.now)
    decreases |s.input|
  {
    hide Distribute, Leads;
    if s.input == [] {
      path, s' := [], s;
      assert Leads(c, s, [], s) by { LeadsNowhere(c, s); }
    } else {
      var s1 := ReceiveLeads(c, s);
      hide Shape, RingOf, Listed;
      var round, s2 := DispatchLeads(c, s1);
      var rest: seq<Action>;
      rest, s' := InputLeads(c, s2);
      DistributeAllCons(c, RingOf(s), s.input[0], s.input[1..], s.now);
      assert [s.input[0]] + s.input[1..] == s.input;
      LeadsAppend(c, s1, round, s2, rest, s');
      LeadsAppend(c, s, [Looped(Receive)], s1, round + rest, s');
      path := [Looped(Receive)] + (round + rest);
    }
  }

  lemma LeadsNowhere(c: Config, s: State)
    ensures Leads(c, s, [], s)
  {
  }

  lemma {:induction false} BufferAllRing(c: Config, s: State, ms: seq<Message>)
    requires forall k :: 0 <= k < |s.subscribers| ==> s.subscribers[k] < |s.table|
    ensures var s' := BufferAll(c, s, ms);
            s'.subscribers == s.subscribers && s'.table == s.table && RingOf(s') == BufferEach(c, RingOf(s), ms)
    decreases |ms|
  {
    BufferAllOnly(c, s, ms);
    if ms == [] {
    } else {
      BufferAllRing(c, BufferOne(c, s, ms[0]), ms[1..]);
    }
  }

  /** The redelivery loop's round, in whatever order the map gives its entries:
      protocol steps lead to what `Redeliver` computes. */
  lemma SweepLeads(c: Config, s: State, timeouts: seq<string>, expiries: seq<string>) returns (path: seq<Action>, s': State)
    requires Shape(c, s) && LoopEnabled(c, s, Sweep(timeouts, expiries))
    ensures Leads(c, s, path, s') && Shape(c, s') && s'.dist == s.dist && s'.redel == Worker([], Idle)
    ensures s'.subscribers == s.subscribers
    ensures var kept := RingOf(s).(pending := s.pending - LateIds(c, s.pending, s.now) - ExpiredIds(c, s.pending, s.now));
            var late := MessagesOf(s.pending, timeouts);
            RingOf(s') == if kept.subs != [] then DeliverAll(c, kept, late, s.now) else BufferEach(c, kept, late)
  {
    hide Deliver;
    var a := Looped(Sweep(timeouts, expiries));
    StepKeepsShape(c, s, a);
    LeadsOne(c, s, a);
    var mid := Apply(c, s, a);
    if mid.redel.todo == [] {
      path, s' := [a], mid;
    } else {
      var rest: seq<Action>;
      if s.subscribers == [] {
        var b := Looped(RequeueAll);
        StepKeepsShape(c, mid, b);
        LeadsOne(c, mid, b);
        BufferAllOnly(c, mid.(redel := Worker([], Idle)), mid.redel.todo);
        BufferAllRing(c, mid.(redel := Worker([], Idle)), mid.redel.todo);
        rest, s' := [b], Apply(c, mid, b);
      } else {
        rest, s' := BatchLeads(c, mid, Redeliverer);
      }
      path := [a] + rest;
      LeadsAppend(c, s, [a], mid, rest, s');
    }
  }

  // ------------------------------------------------------------- other calls

  /** Subscribing adds an open, empty subscriber behind the listed ones. */
  lemma SubscribeAgrees(c: Config, s: State, consumerId: string)
    requires HandlesOk(s.subscribers, |s.table|) && CallEnabled(s, Subscribe(consumerId))
    ensures var s' := ApplyCall(c, s, Subscribe(consumerId));
            && HandlesOk(s'.subscribers, |s'.table|)
            && RingOf(s') == RingOf(s).(subs := RingOf(s).subs + [Subscriber(consumerId, [], false, false, false, false)])
  {
    var s' := ApplyCall(c, s, Subscribe(consumerId));
    assert forall k :: 0 <= k < |s.subscribers| ==> s'.table[s'.subscribers[k]] == s.table[s.subscribers[k]];
  }

  lemma {:induction false} RemoveAt(handles: seq<nat>, i: nat)
    requires i < |handles| && forall x, y :: 0 <= x < y < |handles| ==> handles[x] != handles[y]
    ensures Remove(handles, handles[i]) == handles[..i] + handles[i + 1..]
  {
    if i > 0 {
      assert handles[0] != handles[i];
      RemoveAt(handles[1..], i - 1);
      assert handles[1..][..i - 1] == handles[..i][1..] && handles[1..][i..] == handles[i + 1..];
      assert handles[..i] == [handles[0]] + handles[..i][1..];
    }
  }

  /** A clean-up takes the subscriber at list position `i` out of the list, and the
      cursor back to the start if it would stand outside. */
  lemma CleanupAgrees(c: Config, s: State, i: nat)
    requires HandlesOk(s.subscribers, |s.table|) && i < |s.subscribers| && CallEnabled(s, Cleanup(s.subscribers[i]))
    ensures var s' := ApplyCall(c, s, Cleanup(s.subscribers[i]));
            var subs := RingOf(s).subs[..i] + RingOf(s).subs[i + 1..];
            && HandlesOk(s'.subscribers, |s'.table|)
            && RingOf(s') == RingOf(s).(subs := subs, cursor := if s.cursor >= |subs| then 0 else s.cursor)
            && s'.table[s.subscribers[i]] == s.table[s.subscribers[i]].(closed := true, shut := true)
  {
    var h := s.subscribers[i];
    var s' := ApplyCall(c, s, Cleanup(h));
    RemoveAt(s.subscribers, i);
    assert s'.subscribers == s.subscribers[..i] + s.subscribers[i + 1..] && h in s.subscribers;
    hide Remove;
    ListedWithout(s.table, s.subscribers, i, s.table[h].(closed := true, shut := true));
  }

  lemma ListedWithout(table: seq<Subscriber>, handles: seq<nat>, i: nat, sub: Subscriber)
    requires HandlesOk(handles, |table|) && i < |handles|
    ensures var table', handles' := table[handles[i] := sub], handles[..i] + handles[i + 1..];
            && HandlesOk(handles', |table'|)
            && Listed(table', handles') == Listed(table, handles)[..i] + Listed(table, handles)[i + 1..]
  {
    var handles' := handles[..i] + handles[i + 1..];
    assert forall k :: 0 <= k < |handles'| ==> handles'[k] == handles[if k < i then k else k + 1];
  }

  /** A publish appends to the input channel unless that is full; a consumer takes
      the oldest message out of its channel; a finished Close clears pending. */
  lemma QueuesAgree(c: Config, s: State, call: Call)
    requires CallEnabled(s, call)
    ensures var s' := ApplyCall(c, s, call);
            && (call.Publish? ==> s'.input == if |s.input| < c.bufferSize then s.input + [call.m] else s.input)
            && (call.TakeFrom? ==> |s'.table| == |s.table| && forall h :: 0 <= h < |s.table| ==>
                  s.table[h].channel == (if h == call.sub then [s.table[h].channel[0]] else []) + s'.table[h].channel)
            && (call.FinishClose? ==> s'.pending == map[] && s'.subscribers == [] && s'.input == s.input && s'.backlog == s.backlog)
            && (call.Tick? ==> s' == s.(now := s.now + call.elapsed))
  {
    hide MessagesOf, Lists, ShutAll;
    if call.TakeFrom? {
      var h := call.sub;
      assert s.table[h].channel == [s.table[h].channel[0]] + s.table[h].channel[1..];
    }
  }
}
