/** Order of sending: as long as nothing is redelivered, only overtaking the backlog reorders. */
module QueueFifo {
  import opened Sequences
  import opened Domain
  import opened QueueTypes
  import opened QueueProtocol
  import opened QueueShape
  import opened QueueLedger

  /** No sweep takes a message out of pending for redelivery. */
  ghost predicate NothingRedelivered(c: Config, r: Run)
    requires IsRun(c, r)
  {
    forall i :: 0 <= i < |r.actions| ==> !Redelivers(r.actions[i])
  }

  predicate Redelivers(a: Action) {
    a.Looped? && a.loop.Sweep? && a.loop.timeouts != []
  }

  /** The step sends a message while older ones wait in the backlog. */
  predicate Overtakes(s: State, a: Action) {
    a.Delivered? && a.step.SendOk? && s.backlog != []
  }

  /** The step gives a message in hand up to the backlog. */
  predicate GivesUp(a: Action) {
    a.Delivered? && a.step.BufferHeld?
  }

  /** The accepted messages that met no full backlog, in order of acceptance. */
  function Without(ms: seq<Message>, gone: seq<Message>): seq<Message> {
    if ms == [] then []
    else (if ms[0] in gone then [] else [ms[0]]) + Without(ms[1..], gone)
  }

  /** Everything the queue has taken in and not dropped: what has been sent, the
      backlog, what the distributor holds unsent, and the input channel. */
  function Line(s: State): seq<Message> {
    s.hist.sent + s.backlog + s.dist.Unsent() + s.input
  }

  /** The line is the accepted messages, in order, without those dropped. */
  ghost predicate InLine(s: State) {
    Line(s) == Without(s.hist.accepted, s.hist.dropped)
  }

  lemma {:induction false} WithoutAppend(a: seq<Message>, b: seq<Message>, gone: seq<Message>)
    ensures Without(a + b, gone) == Without(a, gone) + Without(b, gone)
  {
    if a == [] {
      assert a + b == b;
    } else {
      WithoutAppend(a[1..], b, gone);
      assert (a + b)[0] == a[0] && (a + b)[1..] == a[1..] + b;
      Reassociate(if a[0] in gone then [] else [a[0]], Without(a[1..], gone), Without(b, gone));
    }
  }

  lemma {:induction false} WithoutOneMore(ms: seq<Message>, gone: seq<Message>, x: Message)
    ensures Without(ms, gone + [x]) == Without(Without(ms, gone), [x])
  {
    if ms == [] {
    } else {
      WithoutOneMore(ms[1..], gone, x);
      if ms[0] !in gone {
        var rest := Without(ms[1..], gone);
        assert ([ms[0]] + rest)[1..] == rest;
      } else {
        assert Without(ms, gone) == Without(ms[1..], gone);
      }
    }
  }

  lemma {:induction false} WithoutAbsent(ms: seq<Message>, x: Message)
    requires x !in ms
    ensures Without(ms, [x]) == ms
  {
    if ms == [] {
    } else {
      WithoutAbsent(ms[1..], x);
    }
  }

  lemma {:induction false} WithoutCounts(ms: seq<Message>, gone: seq<Message>, x: Message)
    ensures Count(Without(ms, gone), x) <= Count(ms, x)
  {
    if ms == [] {
    } else {
      WithoutCounts(ms[1..], gone, x);
      if ms[0] !in gone {
        var rest := Without(ms[1..], gone);
        assert ([ms[0]] + rest)[1..] == rest;
      } else {
        assert Without(ms, gone) == Without(ms[1..], gone);
      }
    }
  }

  lemma WithoutItself(x: Message)
    ensures Without([x], [x]) == []
  {
  }

  /** Taking the only occurrence of a message out of a line. */
  lemma DropFromLine(accepted: seq<Message>, dropped: seq<Message>, before: seq<Message>, x: Message, after: seq<Message>)
    requires DistinctIds(accepted)
    requires Without(accepted, dropped) == before + [x] + after
    ensures Without(accepted, dropped + [x]) == before + after
  {
    WithoutItself(x);
    hide Without, Count;
    WithoutOneMore(accepted, dropped, x);
    WithoutCounts(accepted, dropped, x);
    DistinctCountsOnce(accepted, x);
    CountAppend(before + [x], after, x);
    CountSnoc(before, x, x);
    CountIn(before, x);
    CountIn(after, x);
    WithoutAppend(before + [x], after, [x]);
    WithoutAppend(before, [x], [x]);
    WithoutAbsent(before, x);
    WithoutAbsent(after, x);
    assert before + [] + after == before + after;
  }

  // ------------------------------------------------------------ step by step

  /** What is left of the line once the distributor has let go of its current message. */
  lemma LineAround(s: State)
    requires s.dist.todo != [] && !s.dist.pc.Tracking?
    ensures var m, after := s.dist.todo[0], s.dist.todo[1..] + s.input;
            && Line(s) == s.hist.sent + s.backlog + [m] + after
            && Line(s.(dist := s.dist.Advance())) == s.hist.sent + s.backlog + after
            && Line(s.(dist := s.dist.Advance(), backlog := s.backlog + [m])) == s.hist.sent + s.backlog + [m] + after
  {
    var m, rest := s.dist.todo[0], s.dist.todo[1..];
    assert s.dist.todo == [m] + rest && s.dist.Advance().Unsent() == rest;
    assert s.hist.sent + s.backlog + ([m] + rest) + s.input == s.hist.sent + s.backlog + [m] + (rest + s.input);
    assert s.hist.sent + (s.backlog + [m]) + rest + s.input == s.hist.sent + s.backlog + [m] + (rest + s.input);
  }

  /** A message that meets a full backlog leaves the line, any other stays where it is. */
  lemma BufferKeepsLine(c: Config, s: State)
    requires Ledger(s) && InLine(s) && s.dist.todo != [] && !s.dist.pc.Tracking?
    ensures InLine(BufferOne(c, s.(dist := s.dist.Advance()), s.dist.todo[0]))
  {
    LineAround(s);
    var m, s1 := s.dist.todo[0], s.(dist := s.dist.Advance());
    var s' := BufferOne(c, s1, m);
    assert DistinctIds(s.hist.accepted);
    hide Without, Ledger;
    if |s.backlog| >= c.MaxUndelivered() {
      assert Line(s') == Line(s1);
      DropFromLine(s.hist.accepted, s.hist.dropped, s.hist.sent + s.backlog, m, s.dist.todo[1..] + s.input);
    }
  }

  lemma PublishKeepsLine(c: Config, s: State, m: Message)
    requires Ledger(s) && InLine(s) && CallEnabled(s, Publish(m))
    ensures InLine(ApplyCall(c, s, Publish(m)))
  {
    var accepted, dropped := s.hist.accepted, s.hist.dropped;
    assert m !in dropped by {
      assert Balanced(s, m);
      CountIn(dropped, m);
      CountIn(accepted, m);
    }
    WithoutAppend(accepted, [m], dropped);
    assert Without([m], dropped) == [m] + Without([], dropped) == [m];
    var s' := s.(input := s.input + [m], hist := s.hist.(accepted := accepted + [m]));
    assert Line(s') == Line(s) + [m];
  }

  lemma CallKeepsLine(c: Config, s: State, call: Call)
    requires Ledger(s) && InLine(s) && CallEnabled(s, call)
    ensures InLine(ApplyCall(c, s, call)) && ApplyCall(c, s, call).redel == s.redel
  {
    match call
    case Publish(m) => PublishKeepsLine(c, s, m);
    case _ =>
  }

  lemma DispatchKeepsLine(c: Config, s: State)
    requires Shape(c, s) && Ledger(s) && InLine(s) && LoopEnabled(c, s, Dispatch)
    ensures InLine(ApplyLoop(c, s, Dispatch))
  {
    hide Without, Ledger;
    if s.subscribers == [] {
      BufferKeepsLine(c, s);
    } else {
      var s' := s.(backlog := [], dist := Worker(s.backlog + s.dist.todo, Top(0)));
      assert Line(s') == Line(s);
    }
  }

  lemma LoopKeepsLine(c: Config, s: State, step: LoopStep)
    requires Shape(c, s) && Ledger(s) && InLine(s) && s.redel.todo == []
    requires LoopEnabled(c, s, step) && !Redelivers(Looped(step))
    ensures InLine(ApplyLoop(c, s, step)) && ApplyLoop(c, s, step).redel.todo == []
  {
    hide Without, LateIds, ExpiredIds, Lists;
    match step
    case Receive =>
      assert s.dist.todo == [];
      assert s.input == [s.input[0]] + s.input[1..];
      assert Line(ApplyLoop(c, s, step)) == s.hist.sent + s.backlog + [s.input[0]] + s.input[1..];
    case Dispatch => DispatchKeepsLine(c, s);
    case _ => assert Line(ApplyLoop(c, s, step)) == Line(s);
  }

  /** A send moves the head of what is in hand past the backlog. */
  lemma SendMovesHead(c: Config, s: State)
    requires DeliveryEnabled(c, s, s.dist, SendOk)
    ensures var s' := ApplyDelivery(c, s, Distributor, SendOk);
            var m, rest := s.dist.todo[0], s.dist.todo[1..] + s.input;
            Line(s) == s.hist.sent + s.backlog + [m] + rest && Line(s') == s.hist.sent + [m] + s.backlog + rest
  {
    var s' := ApplyDelivery(c, s, Distributor, SendOk);
    assert s.dist.todo == [s.dist.todo[0]] + s.dist.todo[1..];
    assert s'.dist.Unsent() == s.dist.todo[1..];
  }

  lemma SendKeepsLineIff(c: Config, s: State)
    requires Ledger(s) && InLine(s) && DeliveryEnabled(c, s, s.dist, SendOk)
    ensures InLine(ApplyDelivery(c, s, Distributor, SendOk)) <==> s.backlog == []
  {
    hide Without, NextPc;
    var m, rest := s.dist.todo[0], s.dist.todo[1..] + s.input;
    SendMovesHead(c, s);
    if s.backlog == [] {
      assert s.hist.sent + [] + [m] + rest == s.hist.sent + [m] + [] + rest;
    } else {
      NotInBacklog(s, m);
      var l, l' := s.hist.sent + s.backlog + [m] + rest, s.hist.sent + [m] + s.backlog + rest;
      assert l[|s.hist.sent|] == s.backlog[0] && l'[|s.hist.sent|] == m;
    }
  }

  /** A message in hand is not in the backlog as well. */
  lemma NotInBacklog(s: State, m: Message)
    requires Ledger(s) && m in s.dist.todo
    ensures m !in s.backlog
  {
    assert Balanced(s, m);
    DistinctCountsOnce(s.hist.accepted, m);
    CountIn(s.dist.todo, m);
    CountIn(s.backlog, m);
  }

  lemma TrackKeepsLine(c: Config, s: State)
    requires InLine(s) && DeliveryEnabled(c, s, s.dist, Track)
    ensures InLine(ApplyDelivery(c, s, Distributor, Track))
  {
    hide NextPc, Without;
    var s' := ApplyDelivery(c, s, Distributor, Track);
    assert s'.dist.Unsent() == s.dist.todo[1..] == s.dist.Unsent();
    assert Line(s') == Line(s);
  }

  lemma CursorMoveKeepsLine(c: Config, s: State, step: DeliveryStep)
    requires InLine(s) && DeliveryEnabled(c, s, s.dist, step)
    requires !step.SendOk? && !step.Track? && !step.BufferHeld?
    ensures InLine(ApplyDelivery(c, s, Distributor, step))
  {
    hide Without;
    var s' := ApplyDelivery(c, s, Distributor, step);
    assert s'.dist.todo == s.dist.todo && !s.dist.pc.Tracking? && !s'.dist.pc.Tracking?;
    assert s'.dist.Unsent() == s.dist.Unsent();
  }

  lemma DeliveryKeepsLineIff(c: Config, s: State, who: Actor, step: DeliveryStep)
    requires Shape(c, s) && Ledger(s) && InLine(s) && s.redel.todo == []
    requires DeliveryEnabled(c, s, WorkerOf(s, who), step)
    ensures InLine(ApplyDelivery(c, s, who, step)) <==> !Overtakes(s, Delivered(who, step))
    ensures ApplyDelivery(c, s, who, step).redel == s.redel
  {
    assert s.redel.pc.Idle? || s.redel.pc.Stopped?;
    assert who == Distributor;
    hide Shape, Without, Line, NextPc;
    match step
    case SendOk => SendKeepsLineIff(c, s);
    case Track => TrackKeepsLine(c, s);
    case BufferHeld => BufferKeepsLine(c, s);
    case _ => CursorMoveKeepsLine(c, s, step);
  }

  /** As long as nothing is redelivered, the one step that breaks the order is a
      send that overtakes the backlog. */
  lemma StepKeepsLineIff(c: Config, s: State, a: Action)
    requires Shape(c, s) && Ledger(s) && InLine(s) && s.redel.todo == [] && Enabled(c, s, a) && !Redelivers(a)
    ensures InLine(Apply(c, s, a)) <==> !Overtakes(s, a)
    ensures Apply(c, s, a).redel.todo == []
  {
    hide Shape, Ledger, InLine;
    match a
    case Called(call) => CallKeepsLine(c, s, call);
    case Looped(step) => LoopKeepsLine(c, s, step);
    case Delivered(who, step) => DeliveryKeepsLineIff(c, s, who, step);
  }

  lemma {:induction false} RunKeepsLine(c: Config, r: Run, i: nat)
    requires c.bufferSize > 0 && IsRun(c, r) && NothingRedelivered(c, r) && i < |r.states|
    requires forall k :: 0 <= k < i ==> !Overtakes(r.states[k], r.actions[k])
    ensures InLine(r.states[i]) && r.states[i].redel.todo == []
  {
    if i == 0 {
    } else {
      RunKeepsLine(c, r, i - 1);
      RunKeepsShape(c, r, i - 1);
      RunKeepsLedger(c, r, i - 1);
      assert Steps(c, r.states[i - 1], r.actions[i - 1], r.states[i]);
      StepKeepsLineIff(c, r.states[i - 1], r.actions[i - 1]);
    }
  }

  /** First in, first out.  With any number of subscribers that come and go, and
      through Close and its drain: as long as no sweep redelivers, every state of
      the run has its messages in the order of acceptance if and only if no
      message is ever sent while the backlog holds older ones. */
  lemma FifoIffNoOvertaking(c: Config, r: Run)
    requires c.bufferSize > 0 && IsRun(c, r) && NothingRedelivered(c, r)
    ensures (forall i :: 0 <= i < |r.states| ==> InLine(r.states[i])) <==>
            (forall i :: 0 <= i < |r.actions| ==> !Overtakes(r.states[i], r.actions[i]))
  {
    if forall i :: 0 <= i < |r.actions| ==> !Overtakes(r.states[i], r.actions[i]) {
      forall i | 0 <= i < |r.states| ensures InLine(r.states[i]) { RunKeepsLine(c, r, i); }
    } else {
      var i := FirstOvertaking(c, r);
      RunKeepsLine(c, r, i);
      RunKeepsShape(c, r, i);
      RunKeepsLedger(c, r, i);
      assert Steps(c, r.states[i], r.actions[i], r.states[i + 1]);
      StepKeepsLineIff(c, r.states[i], r.actions[i]);
    }
  }

  lemma FirstOvertaking(c: Config, r: Run) returns (i: nat)
    requires IsRun(c, r) && exists k :: 0 <= k < |r.actions| && Overtakes(r.states[k], r.actions[k])
    ensures i < |r.actions| && Overtakes(r.states[i], r.actions[i])
    ensures forall k :: 0 <= k < i ==> !Overtakes(r.states[k], r.actions[k])
  {
    i := 0;
    while !Overtakes(r.states[i], r.actions[i])
      invariant i < |r.actions|
      invariant forall k :: 0 <= k < i ==> !Overtakes(r.states[k], r.actions[k])
      invariant exists k :: i <= k < |r.actions| && Overtakes(r.states[k], r.actions[k])
      decreases |r.actions| - i
    {
      i := i + 1;
    }
  }

  // --------------------------------------------------- nothing is given up

  /** While the distributor delivers, nothing is in the backlog. */
  ghost predicate BacklogFlushed(s: State) {
    s.dist.pc.Idle? || s.dist.pc.Received? || s.dist.pc.Stopped? || s.backlog == []
  }

  lemma LoopKeepsFlushed(c: Config, s: State, step: LoopStep)
    requires Shape(c, s) && BacklogFlushed(s) && s.redel.todo == [] && LoopEnabled(c, s, step)
    ensures BacklogFlushed(ApplyLoop(c, s, step))
  {
    hide Bounded, HandlesOk, LateIds, ExpiredIds, MessagesOf, Lists;
    assert s.redel.pc.Idle? || s.redel.pc.Stopped?;
  }

  lemma DeliveryKeepsFlushed(c: Config, s: State, step: DeliveryStep)
    requires BacklogFlushed(s) && DeliveryEnabled(c, s, s.dist, step) && !step.BufferHeld?
    ensures BacklogFlushed(ApplyDelivery(c, s, Distributor, step))
  {
    assert s.backlog == [];
  }

  lemma StepKeepsFlushed(c: Config, s: State, a: Action)
    requires Shape(c, s) && BacklogFlushed(s) && s.redel.todo == [] && Enabled(c, s, a) && !GivesUp(a)
    ensures BacklogFlushed(Apply(c, s, a))
  {
    match a
    case Called(call) =>
    case Looped(step) => LoopKeepsFlushed(c, s, step);
    case Delivered(who, step) =>
      assert s.redel.pc.Idle? || s.redel.pc.Stopped?;
      assert who == Distributor;
      hide Shape;
      DeliveryKeepsFlushed(c, s, step);
  }

  lemma {:induction false} RunKeepsFlushed(c: Config, r: Run, i: nat)
    requires c.bufferSize > 0 && IsRun(c, r) && NothingRedelivered(c, r) && i < |r.states|
    requires forall k :: 0 <= k < i ==> !GivesUp(r.actions[k])
    ensures BacklogFlushed(r.states[i]) && InLine(r.states[i]) && r.states[i].redel.todo == []
  {
    if i == 0 {
    } else {
      RunKeepsFlushed(c, r, i - 1);
      RunKeepsShape(c, r, i - 1);
      RunKeepsLedger(c, r, i - 1);
      assert Steps(c, r.states[i - 1], r.actions[i - 1], r.states[i]);
      StepKeepsFlushed(c, r.states[i - 1], r.actions[i - 1]);
      NothingToOvertake(c, r.states[i - 1], r.actions[i - 1]);
      StepKeepsLineIff(c, r.states[i - 1], r.actions[i - 1]);
    }
  }

  lemma NothingToOvertake(c: Config, s: State, a: Action)
    requires Shape(c, s) && BacklogFlushed(s) && s.redel.todo == [] && Enabled(c, s, a)
    ensures !Overtakes(s, a)
  {
    assert s.redel.pc.Idle? || s.redel.pc.Stopped?;
  }

  /** In particular the order holds if no delivery is given up to the backlog;
      what has been sent is then a prefix of what was accepted and not dropped. */
  lemma FifoUnlessGivenUp(c: Config, r: Run, i: nat)
    requires c.bufferSize > 0 && IsRun(c, r) && NothingRedelivered(c, r) && i < |r.states|
    requires forall k :: 0 <= k < i ==> !GivesUp(r.actions[k])
    ensures Line(r.states[i]) == Without(r.states[i].hist.accepted, r.states[i].hist.dropped)
    ensures r.states[i].hist.sent <= Without(r.states[i].hist.accepted, r.states[i].hist.dropped)
  {
    RunKeepsFlushed(c, r, i);
  }
}
