/** The order in which messages are sent for the first time, redeliveries or not. */
module QueueFirstSends {
  import opened Sequences
  import opened Domain
  import opened QueueTypes
  import opened QueueProtocol
  import opened QueueShape
  import opened QueueLedger
  import opened QueueFifo

  /** Every message of `ms` once, where it first occurs. */
  function Firsts(ms: seq<Message>): seq<Message> {
    if ms == [] then []
    else
      var n := |ms| - 1;
      Firsts(ms[..n]) + if ms[n] in ms[..n] then [] else [ms[n]]
  }

  lemma FirstsSnoc(ms: seq<Message>, m: Message)
    ensures Firsts(ms + [m]) == Firsts(ms) + if m in ms then [] else [m]
  {
    assert (ms + [m])[..|ms|] == ms;
  }

  /** What the distributor's side of the queue holds, the oldest first. */
  function Waiting(s: State): seq<Message> {
    s.backlog + s.dist.todo + s.input
  }

  /** First sends so far, then whatever waits for its first send. */
  function FirstLine(s: State): seq<Message> {
    Firsts(s.hist.sent) + Without(Waiting(s), s.hist.sent)
  }

  /** The messages dropped before they were ever sent. */
  function LostUnsent(s: State): seq<Message> {
    Without(s.hist.dropped, s.hist.sent)
  }

  ghost predicate InFirstLine(s: State) {
    FirstLine(s) == Without(s.hist.accepted, LostUnsent(s))
  }

  /** The step sends a message for the first time while older ones that have never
      been sent wait in the backlog. */
  predicate OvertakesUnsent(s: State, a: Action) {
    && a.Delivered? && a.step.SendOk? && WorkerOf(s, a.who).todo != [] && WorkerOf(s, a.who).todo[0] !in s.hist.sent
    && Without(s.backlog, s.hist.sent) != []
  }

  ghost predicate AllSent(ms: seq<Message>, sent: seq<Message>) {
    forall k :: 0 <= k < |ms| ==> ms[k] in sent
  }

  /** Whatever is redelivered, pending or being tracked has been sent, and whatever
      has been sent was accepted. */
  ghost predicate SentBefore(s: State) {
    && AllSent(s.redel.todo, s.hist.sent)
    && (forall id :: id in s.pending ==> s.pending[id].message in s.hist.sent)
    && (s.dist.pc.Tracking? && s.dist.todo != [] ==> s.dist.todo[0] in s.hist.sent)
    && AllSent(s.hist.sent, s.hist.accepted)
  }

  // ------------------------------------------------------------------ filters

  lemma {:induction false} WithoutSame(ms: seq<Message>, gone: seq<Message>, gone': seq<Message>)
    requires forall k :: 0 <= k < |ms| ==> (ms[k] in gone <==> ms[k] in gone')
    ensures Without(ms, gone) == Without(ms, gone')
  {
    if ms != [] {
      assert ms[0] in gone <==> ms[0] in gone';
      WithoutSame(ms[1..], gone, gone');
    }
  }

  lemma {:induction false} WithoutAll(ms: seq<Message>, gone: seq<Message>)
    requires AllSent(ms, gone)
    ensures Without(ms, gone) == []
  {
    if ms != [] {
      WithoutAll(ms[1..], gone);
    }
  }

  /** Adding to the end what is filtered out anyway changes nothing. */
  lemma WithoutMore(ms: seq<Message>, more: seq<Message>, rest: seq<Message>, gone: seq<Message>)
    requires AllSent(more, gone)
    ensures Without(ms + more, gone) == Without(ms, gone)
    ensures Without(ms + more + rest, gone) == Without(ms + rest, gone)
  {
    WithoutAll(more, gone);
    WithoutAppend(ms, more, gone);
    assert Without(ms, gone) + [] == Without(ms, gone);
    WithoutAppend(ms + more, rest, gone);
    WithoutAppend(ms, rest, gone);
  }

  lemma {:induction false} WithoutIn(ms: seq<Message>, gone: seq<Message>, m: Message)
    ensures m in Without(ms, gone) <==> m in ms && m !in gone
  {
    if ms != [] {
      WithoutIn(ms[1..], gone, m);
      assert m in ms <==> m == ms[0] || m in ms[1..];
    }
  }

  // ------------------------------------------------------- sent before

  lemma {:induction false} MessagesOfSent(pending: map<string, Pending>, ids: seq<string>, sent: seq<Message>)
    requires forall id :: id in ids ==> id in pending
    requires forall id :: id in pending ==> pending[id].message in sent
    ensures AllSent(MessagesOf(pending, ids), sent)
  {
    if ids != [] {
      MessagesOfSent(pending, ids[1..], sent);
      assert MessagesOf(pending, ids)[1..] == MessagesOf(pending, ids[1..]);
    }
  }

  lemma CallKeepsSentBefore(c: Config, s: State, call: Call)
    requires SentBefore(s) && CallEnabled(s, call)
    ensures SentBefore(ApplyCall(c, s, call))
  {
    hide Lists, MessagesOf, ShutAll;
  }

  lemma SweepKeepsSentBefore(c: Config, s: State, timeouts: seq<string>, expiries: seq<string>)
    requires SentBefore(s) && LoopEnabled(c, s, Sweep(timeouts, expiries))
    ensures SentBefore(ApplySweep(c, s, timeouts, expiries))
  {
    MessagesOfSent(s.pending, timeouts, s.hist.sent);
    hide Lists, MessagesOf, LateIds, ExpiredIds, AllSent;
  }

  lemma LoopKeepsSentBefore(c: Config, s: State, step: LoopStep)
    requires SentBefore(s) && LoopEnabled(c, s, step)
    ensures SentBefore(ApplyLoop(c, s, step))
  {
    match step
    case Sweep(timeouts, expiries) => SweepKeepsSentBefore(c, s, timeouts, expiries);
    case RequeueAll =>
      hide BufferAll;
      BufferAllOnly(c, s.(redel := Worker([], Idle)), s.redel.todo);
    case _ => hide ShutAll, AllSent;
  }

  lemma HeadWasAccepted(s: State, who: Actor)
    requires Ledger(s) && WorkerOf(s, who).todo != []
    ensures WorkerOf(s, who).todo[0] in s.hist.accepted
  {
    var m := WorkerOf(s, who).todo[0];
    assert Balanced(s, m);
    assert Count(WorkerOf(s, who).todo, m) >= 1;
    CountIn(s.hist.accepted, m);
  }

  lemma SendKeepsSentBefore(c: Config, s: State, who: Actor)
    requires Ledger(s) && SentBefore(s) && DeliveryEnabled(c, s, WorkerOf(s, who), SendOk)
    ensures SentBefore(ApplyDelivery(c, s, who, SendOk))
  {
    HeadWasAccepted(s, who);
    hide Ledger;
    var m := WorkerOf(s, who).todo[0];
    var sent' := s.hist.sent + [m];
    assert forall x :: x in s.hist.sent ==> x in sent';
    assert sent'[|s.hist.sent|] == m;
  }

  /** A goroutine lets go of its current message. */
  lemma AdvanceKeepsSentBefore(s: State, who: Actor)
    requires SentBefore(s) && WorkerOf(s, who).todo != []
    ensures SentBefore(SetWorker(s, who, WorkerOf(s, who).Advance()))
  {
  }

  lemma TrackKeepsSentBefore(c: Config, s: State, m: Message, consumerId: string)
    requires SentBefore(s) && m in s.hist.sent
    ensures SentBefore(TrackSent(c, s, m, consumerId))
  {
  }

  lemma BufferKeepsSentBefore(c: Config, s: State, m: Message)
    requires SentBefore(s)
    ensures SentBefore(BufferOne(c, s, m))
  {
  }

  lemma MoveKeepsSentBefore(c: Config, s: State, who: Actor, step: DeliveryStep)
    requires SentBefore(s) && DeliveryEnabled(c, s, WorkerOf(s, who), step)
    requires !step.SendOk? && !step.Track? && !step.BufferHeld?
    ensures SentBefore(ApplyDelivery(c, s, who, step))
  {
    hide AllSent;
  }

  lemma DeliveryKeepsSentBefore(c: Config, s: State, who: Actor, step: DeliveryStep)
    requires SentBefore(s) && DeliveryEnabled(c, s, WorkerOf(s, who), step) && !step.SendOk?
    ensures SentBefore(ApplyDelivery(c, s, who, step))
  {
    var w := WorkerOf(s, who);
    if step.Track? || step.BufferHeld? {
      assert step.Track? ==> w.todo[0] in s.hist.sent;
      AdvanceKeepsSentBefore(s, who);
      hide SentBefore, TrackSent, BufferOne, NextPc;
      if step.Track? {
        TrackKeepsSentBefore(c, SetWorker(s, who, w.Advance()), w.todo[0], s.table[w.pc.sub].consumerId);
      } else {
        BufferKeepsSentBefore(c, SetWorker(s, who, w.Advance()), w.todo[0]);
      }
    } else {
      MoveKeepsSentBefore(c, s, who, step);
    }
  }

  lemma StepKeepsSentBefore(c: Config, s: State, a: Action)
    requires Ledger(s) && SentBefore(s) && Enabled(c, s, a)
    ensures SentBefore(Apply(c, s, a))
  {
    hide SentBefore, Ledger;
    match a
    case Called(call) => CallKeepsSentBefore(c, s, call);
    case Looped(step) => LoopKeepsSentBefore(c, s, step);
    case Delivered(who, step) =>
      if step.SendOk? { SendKeepsSentBefore(c, s, who); } else { DeliveryKeepsSentBefore(c, s, who, step); }
  }

  // ------------------------------------------------------------ step by step

  /** What concerns the line of first sends. */
  predicate SameLine(s: State, s': State) {
    && Waiting(s') == Waiting(s)
    && s'.hist.sent == s.hist.sent && s'.hist.accepted == s.hist.accepted && s'.hist.dropped == s.hist.dropped
  }

  lemma SameLineStays(s: State, s': State)
    requires InFirstLine(s) && SameLine(s, s')
    ensures InFirstLine(s')
  {
  }

  lemma DroppedWasAccepted(s: State, m: Message)
    requires Ledger(s) && m in s.hist.dropped
    ensures m in s.hist.accepted
  {
    assert Balanced(s, m);
    CountIn(s.hist.dropped, m);
    CountIn(s.hist.accepted, m);
  }

  lemma PublishKeepsFirstLine(c: Config, s: State, m: Message)
    requires Ledger(s) && SentBefore(s) && InFirstLine(s) && CallEnabled(s, Publish(m))
    ensures InFirstLine(ApplyCall(c, s, Publish(m)))
  {
    var s' := ApplyCall(c, s, Publish(m));
    if s' != s {
      assert m !in s.hist.accepted;
      assert m !in s.hist.sent;
      var sent, lost := s.hist.sent, LostUnsent(s);
      WithoutIn(s.hist.dropped, sent, m);
      if m in s.hist.dropped { DroppedWasAccepted(s, m); }
      hide Without, Ledger, SentBefore;
      assert Waiting(s') == Waiting(s) + [m];
      WithoutAppend(Waiting(s), [m], sent);
      WithoutAppend(s.hist.accepted, [m], lost);
      WithoutAbsentOf(m, sent);
      WithoutAbsentOf(m, lost);
      Reassociate(Firsts(sent), Without(Waiting(s), sent), [m]);
    }
  }

  lemma WithoutAbsentOf(m: Message, gone: seq<Message>)
    requires m !in gone
    ensures Without([m], gone) == [m]
  {
    assert [m][1..] == [];
  }

  lemma CallKeepsFirstLine(c: Config, s: State, call: Call)
    requires Ledger(s) && SentBefore(s) && InFirstLine(s) && CallEnabled(s, call)
    ensures InFirstLine(ApplyCall(c, s, call))
  {
    match call
    case Publish(m) => PublishKeepsFirstLine(c, s, m);
    case _ =>
      hide InFirstLine, Lists, MessagesOf, ShutAll;
      SameLineStays(s, ApplyCall(c, s, call));
  }

  /** A message met by a full backlog leaves the line if it had not been sent. */
  lemma DropKeepsFirstLine(s: State, s': State, before: seq<Message>, m: Message, after: seq<Message>)
    requires Ledger(s) && InFirstLine(s) && Waiting(s) == before + [m] + after && Waiting(s') == before + after
    requires s'.hist.sent == s.hist.sent && s'.hist.accepted == s.hist.accepted && s'.hist.dropped == s.hist.dropped + [m]
    ensures InFirstLine(s')
  {
    var sent := s.hist.sent;
    assert DistinctIds(s.hist.accepted);
    hide Ledger;
    WithoutAppend(s.hist.dropped, [m], sent);
    WithoutAppend(before + [m], after, sent);
    WithoutAppend(before, [m], sent);
    WithoutAppend(before, after, sent);
    var f, b, a := Firsts(sent), Without(before, sent), Without(after, sent);
    if m in sent {
      WithoutAll([m], sent);
      hide Without;
      assert b + [] == b && LostUnsent(s) + [] == LostUnsent(s);
    } else {
      WithoutAbsentOf(m, sent);
      hide Without;
      assert f + ((b + [m]) + a) == (f + b) + [m] + a && f + (b + a) == (f + b) + a;
      DropFromLine(s.hist.accepted, LostUnsent(s), f + b, m, a);
    }
  }

  /** The distributor's current message joins the backlog or is dropped. */
  lemma BufferHeadKeepsFirstLine(c: Config, s: State)
    requires Ledger(s) && InFirstLine(s) && s.dist.todo != []
    ensures InFirstLine(BufferOne(c, s.(dist := s.dist.Advance()), s.dist.todo[0]))
  {
    var m, rest := s.dist.todo[0], s.dist.todo[1..];
    var s' := BufferOne(c, s.(dist := s.dist.Advance()), m);
    assert s.dist.todo == [m] + rest && s'.dist.todo == rest;
    assert Waiting(s) == s.backlog + [m] + (rest + s.input);
    hide InFirstLine, Ledger;
    if |s.backlog| < c.MaxUndelivered() {
      assert Waiting(s') == (s.backlog + [m]) + rest + s.input;
      SameLineStays(s, s');
    } else {
      assert Waiting(s') == s.backlog + (rest + s.input);
      DropKeepsFirstLine(s, s', s.backlog, m, rest + s.input);
    }
  }

  /** Buffering a message that has been sent before does not touch the line. */
  lemma BufferSentKeepsFirstLine(c: Config, s: State, m: Message)
    requires InFirstLine(s) && m in s.hist.sent
    ensures InFirstLine(BufferOne(c, s, m))
  {
    var s', sent := BufferOne(c, s, m), s.hist.sent;
    WithoutMore(s.backlog, [m], s.dist.todo + s.input, sent);
    WithoutMore(s.hist.dropped, [m], [], sent);
    hide Without;
    assert Waiting(s) == s.backlog + (s.dist.todo + s.input);
    if |s.backlog| < c.MaxUndelivered() {
      assert Waiting(s') == s.backlog + [m] + (s.dist.todo + s.input);
    }
  }

  lemma {:induction false} BufferAllKeepsFirstLine(c: Config, s: State, ms: seq<Message>)
    requires InFirstLine(s) && AllSent(ms, s.hist.sent)
    ensures InFirstLine(BufferAll(c, s, ms))
    decreases |ms|
  {
    if ms != [] {
      hide InFirstLine;
      BufferSentKeepsFirstLine(c, s, ms[0]);
      assert BufferOne(c, s, ms[0]).hist.sent == s.hist.sent;
      BufferAllKeepsFirstLine(c, BufferOne(c, s, ms[0]), ms[1..]);
    }
  }

  lemma DispatchKeepsFirstLine(c: Config, s: State)
    requires Ledger(s) && InFirstLine(s) && LoopEnabled(c, s, Dispatch)
    ensures InFirstLine(ApplyLoop(c, s, Dispatch))
  {
    hide InFirstLine, Ledger;
    if s.subscribers == [] {
      BufferHeadKeepsFirstLine(c, s);
    } else {
      var s' := s.(backlog := [], dist := Worker(s.backlog + s.dist.todo, Top(0)));
      assert Waiting(s') == Waiting(s);
      SameLineStays(s, s');
    }
  }

  lemma RequeueKeepsFirstLine(c: Config, s: State)
    requires SentBefore(s) && InFirstLine(s) && LoopEnabled(c, s, RequeueAll)
    ensures InFirstLine(ApplyLoop(c, s, RequeueAll))
  {
    var s1 := s.(redel := Worker([], Idle));
    SameLineStays(s, s1);
    hide InFirstLine, BufferAll;
    BufferAllKeepsFirstLine(c, s1, s.redel.todo);
  }

  lemma LoopKeepsFirstLine(c: Config, s: State, step: LoopStep)
    requires Shape(c, s) && Ledger(s) && SentBefore(s) && InFirstLine(s) && LoopEnabled(c, s, step)
    ensures InFirstLine(ApplyLoop(c, s, step))
  {
    match step
    case Dispatch => DispatchKeepsFirstLine(c, s);
    case RequeueAll => RequeueKeepsFirstLine(c, s);
    case Receive =>
      assert s.dist.todo == [];
      hide InFirstLine, Ledger, Shape;
      assert s.backlog + [] + s.input == s.backlog + [s.input[0]] + s.input[1..];
      SameLineStays(s, ApplyLoop(c, s, step));
    case _ =>
      hide InFirstLine, Ledger, Shape, Lists, MessagesOf, LateIds, ExpiredIds, ShutAll;
      SameLineStays(s, ApplyLoop(c, s, step));
  }

  /** Sending again what has been sent before. */
  lemma ResendKeepsFirstLine(c: Config, s: State, who: Actor)
    requires InFirstLine(s) && DeliveryEnabled(c, s, WorkerOf(s, who), SendOk) && WorkerOf(s, who).todo[0] in s.hist.sent
    ensures InFirstLine(ApplyDelivery(c, s, who, SendOk))
  {
    var m, sent := WorkerOf(s, who).todo[0], s.hist.sent;
    FirstsSnoc(sent, m);
    assert forall x :: x in sent <==> x in sent + [m];
    WithoutSame(Waiting(s), sent, sent + [m]);
    WithoutSame(s.hist.dropped, sent, sent + [m]);
    assert Firsts(sent) + [] == Firsts(sent);
    hide Without, Firsts;
  }

  /** Where the head of the distributor's hand stands when it is sent for the first time. */
  lemma FirstSendMoves(s: State, m: Message, rest: seq<Message>)
    requires Ledger(s) && s.dist.todo == [m] + rest && m !in s.hist.sent
    ensures var sent := s.hist.sent;
            var b, a := Without(s.backlog, sent), Without(rest + s.input, sent);
            && Without(Waiting(s), sent) == b + [m] + a
            && Without(Waiting(s), sent + [m]) == b + a
            && Without(s.hist.dropped, sent + [m]) == Without(s.hist.dropped, sent)
  {
    var sent, after := s.hist.sent, rest + s.input;
    var b, a := Without(s.backlog, sent), Without(after, sent);
    OnlyInHand(s, m, rest);
    WithoutIn(s.backlog, sent, m);
    WithoutIn(after, sent, m);
    WithoutIn(s.hist.dropped, sent, m);
    assert m !in after;
    hide Ledger;
    assert Waiting(s) == s.backlog + [m] + after;
    WithoutAppend(s.backlog + [m], after, sent);
    WithoutAppend(s.backlog, [m], sent);
    WithoutAbsentOf(m, sent);
    WithoutOneMore(Waiting(s), sent, m);
    WithoutOneMore(s.hist.dropped, sent, m);
    WithoutAbsent(Without(s.hist.dropped, sent), m);
    WithoutAppend(b + [m], a, [m]);
    WithoutAppend(b, [m], [m]);
    WithoutAbsent(b, m);
    WithoutAbsent(a, m);
    WithoutItself(m);
    hide Without;
    assert b + [] == b;
  }

  lemma OnlyInHand(s: State, m: Message, rest: seq<Message>)
    requires Ledger(s) && s.dist.todo == [m] + rest
    ensures m !in s.backlog && m !in rest && m !in s.input && m !in s.hist.dropped
  {
    assert Balanced(s, m);
    DistinctCountsOnce(s.hist.accepted, m);
    CountAppend([m], rest, m);
    CountIn([m], m);
    CountIn(rest, m);
    CountIn(s.backlog, m);
    CountIn(s.input, m);
    CountIn(s.hist.dropped, m);
  }

  lemma InFrontIff(f: seq<Message>, b: seq<Message>, m: Message, a: seq<Message>)
    requires m !in b
    ensures f + (b + [m] + a) == (f + [m]) + (b + a) <==> b == []
  {
    if b == [] {
      assert f + ([] + [m] + a) == (f + [m]) + ([] + a);
    } else {
      assert (f + (b + [m] + a))[|f|] == b[0] && ((f + [m]) + (b + a))[|f|] == m;
      assert b[0] in b;
    }
  }

  /** A first send keeps the order exactly if no unsent message waits in the backlog. */
  lemma FirstSendIff(c: Config, s: State)
    requires Ledger(s) && InFirstLine(s) && DeliveryEnabled(c, s, s.dist, SendOk) && s.dist.todo[0] !in s.hist.sent
    ensures InFirstLine(ApplyDelivery(c, s, Distributor, SendOk)) <==> Without(s.backlog, s.hist.sent) == []
  {
    var m, rest, sent := s.dist.todo[0], s.dist.todo[1..], s.hist.sent;
    var s' := ApplyDelivery(c, s, Distributor, SendOk);
    assert s.dist.todo == [m] + rest;
    assert Waiting(s') == Waiting(s) && s'.hist == s.hist.(sent := sent + [m]);
    hide Without, Firsts, Ledger, ApplyDelivery;
    FirstSendMoves(s, m, rest);
    FirstsSnoc(sent, m);
    OnlyInHand(s, m, rest);
    WithoutIn(s.backlog, sent, m);
    InFrontIff(Firsts(sent), Without(s.backlog, sent), m, Without(rest + s.input, sent));
  }

  /** The distributor lets go of a message that has been sent. */
  lemma LetGoKeepsFirstLine(s: State, s': State)
    requires InFirstLine(s) && s.dist.todo != [] && s.dist.todo[0] in s.hist.sent
    requires s'.dist.todo == s.dist.todo[1..] && s'.backlog == s.backlog && s'.input == s.input
    requires s'.hist.sent == s.hist.sent && s'.hist.accepted == s.hist.accepted && s'.hist.dropped == s.hist.dropped
    ensures InFirstLine(s')
  {
    var m, rest := s.dist.todo[0], s.dist.todo[1..];
    assert s.dist.todo == [m] + rest;
    assert Waiting(s) == s.backlog + [m] + (rest + s.input) && Waiting(s') == s.backlog + (rest + s.input);
    hide Without, Firsts;
    WithoutMore(s.backlog, [m], rest + s.input, s.hist.sent);
  }

  lemma TrackKeepsFirstLine(c: Config, s: State, who: Actor)
    requires SentBefore(s) && InFirstLine(s) && DeliveryEnabled(c, s, WorkerOf(s, who), Track)
    ensures InFirstLine(ApplyDelivery(c, s, who, Track))
  {
    assert who.Distributor? ==> s.dist.todo[0] in s.hist.sent;
    hide NextPc, InFirstLine, SentBefore, TrackSent;
    var w, s' := WorkerOf(s, who), ApplyDelivery(c, s, who, Track);
    TrackSentOnly(c, SetWorker(s, who, w.Advance()), w.todo[0], s.table[w.pc.sub].consumerId);
    if who.Redeliverer? { SameLineStays(s, s'); } else { LetGoKeepsFirstLine(s, s'); }
  }

  lemma BufferHeldKeepsFirstLine(c: Config, s: State, who: Actor)
    requires Ledger(s) && SentBefore(s) && InFirstLine(s) && DeliveryEnabled(c, s, WorkerOf(s, who), BufferHeld)
    ensures InFirstLine(ApplyDelivery(c, s, who, BufferHeld))
  {
    if who.Redeliverer? {
      var s1 := s.(redel := s.redel.Advance());
      assert s.redel.todo[0] in s.hist.sent;
      hide InFirstLine, SentBefore, Ledger;
      SameLineStays(s, s1);
      BufferSentKeepsFirstLine(c, s1, s.redel.todo[0]);
    } else {
      hide InFirstLine, SentBefore, Ledger;
      BufferHeadKeepsFirstLine(c, s);
    }
  }

  lemma MoveKeepsFirstLine(c: Config, s: State, who: Actor, step: DeliveryStep)
    requires InFirstLine(s) && DeliveryEnabled(c, s, WorkerOf(s, who), step)
    requires !step.SendOk? && !step.Track? && !step.BufferHeld?
    ensures InFirstLine(ApplyDelivery(c, s, who, step))
  {
    hide InFirstLine, NextPc;
    SameLineStays(s, ApplyDelivery(c, s, who, step));
  }

  lemma SendKeepsFirstLineIff(c: Config, s: State, who: Actor)
    requires Ledger(s) && SentBefore(s) && InFirstLine(s) && DeliveryEnabled(c, s, WorkerOf(s, who), SendOk)
    ensures InFirstLine(ApplyDelivery(c, s, who, SendOk)) <==> !OvertakesUnsent(s, Delivered(who, SendOk))
  {
    assert who.Redeliverer? ==> WorkerOf(s, who).todo[0] in s.hist.sent;
    if WorkerOf(s, who).todo[0] in s.hist.sent {
      hide InFirstLine, SentBefore, Ledger;
      ResendKeepsFirstLine(c, s, who);
    } else {
      hide InFirstLine, SentBefore, Ledger;
      FirstSendIff(c, s);
    }
  }

  /** In any step of any interleaving, the one thing that breaks the order of first
      sends is a first send that overtakes an unsent message in the backlog. */
  lemma StepKeepsFirstLineIff(c: Config, s: State, a: Action)
    requires Shape(c, s) && Ledger(s) && SentBefore(s) && InFirstLine(s) && Enabled(c, s, a)
    ensures InFirstLine(Apply(c, s, a)) <==> !OvertakesUnsent(s, a)
  {
    hide InFirstLine, SentBefore, Ledger, Shape;
    match a
    case Called(call) => CallKeepsFirstLine(c, s, call);
    case Looped(step) => LoopKeepsFirstLine(c, s, step);
    case Delivered(who, step) =>
      if step.SendOk? { SendKeepsFirstLineIff(c, s, who); }
      else if step.Track? { TrackKeepsFirstLine(c, s, who); }
      else if step.BufferHeld? { BufferHeldKeepsFirstLine(c, s, who); }
      else { MoveKeepsFirstLine(c, s, who, step); }
  }

  // ---------------------------------------------------------------- all runs

  lemma {:induction false} RunKeepsSentBefore(c: Config, r: Run, i: nat)
    requires c.bufferSize > 0 && IsRun(c, r) && i < |r.states|
    ensures SentBefore(r.states[i])
  {
    if i > 0 {
      RunKeepsSentBefore(c, r, i - 1);
      RunKeepsLedger(c, r, i - 1);
      assert Steps(c, r.states[i - 1], r.actions[i - 1], r.states[i]);
      hide SentBefore, Ledger, Apply, Enabled;
      StepKeepsSentBefore(c, r.states[i - 1], r.actions[i - 1]);
    }
  }

  lemma RunStepIff(c: Config, r: Run, i: nat)
    requires c.bufferSize > 0 && IsRun(c, r) && i < |r.actions| && InFirstLine(r.states[i])
    ensures InFirstLine(r.states[i + 1]) <==> !OvertakesUnsent(r.states[i], r.actions[i])
  {
    RunKeepsSentBefore(c, r, i);
    RunKeepsShape(c, r, i);
    RunKeepsLedger(c, r, i);
    assert Steps(c, r.states[i], r.actions[i], r.states[i + 1]);
    hide SentBefore, Ledger, Shape, Apply, Enabled, InFirstLine, OvertakesUnsent;
    StepKeepsFirstLineIff(c, r.states[i], r.actions[i]);
  }

  lemma {:induction false} RunKeepsFirstLine(c: Config, r: Run, i: nat)
    requires c.bufferSize > 0 && IsRun(c, r) && i < |r.states|
    requires forall k :: 0 <= k < i ==> !OvertakesUnsent(r.states[k], r.actions[k])
    ensures InFirstLine(r.states[i])
  {
    if i > 0 {
      RunKeepsFirstLine(c, r, i - 1);
      RunStepIff(c, r, i - 1);
    }
  }

  lemma FirstOvertaking(c: Config, r: Run) returns (i: nat)
    requires IsRun(c, r) && exists k :: 0 <= k < |r.actions| && OvertakesUnsent(r.states[k], r.actions[k])
    ensures i < |r.actions| && OvertakesUnsent(r.states[i], r.actions[i])
    ensures forall k :: 0 <= k < i ==> !OvertakesUnsent(r.states[k], r.actions[k])
  {
    i := 0;
    while !OvertakesUnsent(r.states[i], r.actions[i])
      invariant i < |r.actions|
      invariant forall k :: 0 <= k < i ==> !OvertakesUnsent(r.states[k], r.actions[k])
      invariant exists k :: i <= k < |r.actions| && OvertakesUnsent(r.states[k], r.actions[k])
      decreases |r.actions| - i
    {
      i := i + 1;
    }
  }

  /** First in, first out, of first sends, in every run whatever: with redeliveries,
      subscribers that come and go, and Close.  In every state the first sends so
      far and then the unsent messages in backlog, hand and input channel are the
      accepted messages in order, without those dropped before they were sent, if
      and only if no first send ever overtakes an unsent message in the backlog. */
  lemma FirstSendsInOrderIff(c: Config, r: Run)
    requires c.bufferSize > 0 && IsRun(c, r)
    ensures (forall i :: 0 <= i < |r.states| ==> InFirstLine(r.states[i])) <==>
            (forall i :: 0 <= i < |r.actions| ==> !OvertakesUnsent(r.states[i], r.actions[i]))
  {
    hide InFirstLine, OvertakesUnsent;
    if forall i :: 0 <= i < |r.actions| ==> !OvertakesUnsent(r.states[i], r.actions[i]) {
      forall i | 0 <= i < |r.states| ensures InFirstLine(r.states[i]) { RunKeepsFirstLine(c, r, i); }
    } else {
      var i := FirstOvertaking(c, r);
      RunKeepsFirstLine(c, r, i);
      RunStepIff(c, r, i);
    }
  }
}
