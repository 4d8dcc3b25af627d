/** Which messages can still be sent: exactly those the queue holds and that are
    neither past saving nor, once the queue is closed, stranded. */
module QueueFate {
  import opened Domain
  import opened QueueTypes
  import opened QueueProtocol
  import opened QueueShape
  import opened QueueLedger
  import opened DeliveryRuns
  import opened QueueReach

  /** Some continuation sends the message (once more). */
  ghost predicate CanSend(c: Config, s: State, m: Message) {
    exists s' :: Reaches(c, s, s') && Count(s'.hist.sent, m) > Count(s.hist.sent, m)
  }

  lemma {:induction false} LeadsExtends(c: Config, s: State, path: seq<Action>, s': State, m: Message)
    requires Leads(c, s, path, s')
    ensures Count(s.hist.sent, m) <= Count(s'.hist.sent, m)
    decreases |path|
  {
    if path != [] {
      StepExtendsHistory(c, s, path[0]);
      hide Apply, Enabled, Extends, Outcomes, Count;
      OutcomesExtend(s.hist, Apply(c, s, path[0]).hist, m);
      LeadsExtends(c, Apply(c, s, path[0]), path[1..], s', m);
    }
  }

  lemma CanSendVia(c: Config, s: State, mid: State, m: Message)
    requires Reaches(c, s, mid) && CanSend(c, mid, m)
    ensures CanSend(c, s, m)
  {
    var path :| Leads(c, s, path, mid);
    LeadsExtends(c, s, path, mid, m);
    var s' :| Reaches(c, mid, s') && Count(s'.hist.sent, m) > Count(mid.hist.sent, m);
    ReachesOn(c, s, mid, s');
  }

  /** Nobody is inside the read lock, and somebody can still be served. */
  ghost predicate Calm(c: Config, s: State) {
    Good(c, s) && NoReaders(s) && (s.closed ==> s.subscribers != [])
  }

  /** The rounds of the distributor that are still to come; each flushes the backlog. */
  function Rounds(s: State): nat {
    |s.input| + if s.dist.pc.Received? then 1 else 0
  }

  /** At least `n` rounds are to come: an open queue can always get another message. */
  predicate HasRounds(s: State, n: nat) {
    s.closed ==> Rounds(s) >= n
  }

  // -------------------------------------------------- making room to deliver

  /** A new subscriber if there is none. */
  lemma EnsureSubscriber(c: Config, s: State) returns (s': State)
    requires Calm(c, s)
    ensures Calm(c, s') && Reaches(c, s, s') && s'.subscribers != []
    ensures s' == s.(table := s'.table, subscribers := s'.subscribers)
  {
    if s.subscribers == [] {
      s' := Take(c, s, Called(Subscribe("subscriber")));
    } else {
      s' := s;
      ReachesItself(c, s);
    }
  }

  /** An ID longer than all those in use. */
  function LongId(ms: seq<Message>): string {
    if ms == [] then "x" else LongId(ms[1..]) + ms[0].id
  }

  lemma {:induction false} LongIdIsFresh(ms: seq<Message>)
    ensures LongId(ms) != "" && forall i :: 0 <= i < |ms| ==> |ms[i].id| < |LongId(ms)|
  {
    if ms == [] {
    } else {
      LongIdIsFresh(ms[1..]);
      assert forall i :: 1 <= i < |ms| ==> ms[i] == ms[1..][i - 1];
    }
  }

  function FreshMessage(ms: seq<Message>): Message {
    Message(LongId(ms), Some(TelemetryRecord("", "", "", 0, "", "", "", "", "", "", "")), 0, "")
  }

  /** The idle distributor has a message to take, or is given one. */
  lemma NextMessage(c: Config, s: State) returns (s': State)
    requires Calm(c, s) && s.dist.pc.Idle? && HasRounds(s, 1)
    ensures Calm(c, s') && Reaches(c, s, s') && s'.dist.pc.Received?
    ensures s' == s.(input := s'.input, dist := s'.dist, hist := s'.hist)
    ensures s.input != [] ==> s'.dist.todo == [s.input[0]] && s'.input == s.input[1..]
  {
    var s1 := s;
    ReachesItself(c, s);
    if s.input == [] {
      var m := FreshMessage(s.hist.accepted);
      LongIdIsFresh(s.hist.accepted);
      s1 := Take(c, s, Called(Publish(m)));
    }
    hide Good, Reaches;
    s' := Take(c, s1, Looped(Receive));
    ReachesOn(c, s, s1, s');
  }

  /** The distributor takes the whole backlog into its hands. */
  lemma Flush(c: Config, s: State) returns (s': State)
    requires Calm(c, s) && s.subscribers != [] && HasRounds(s, 1)
    ensures Calm(c, s') && Reaches(c, s, s') && s'.dist.pc == Top(0) && s'.backlog == [] && s'.subscribers == s.subscribers
    ensures s'.closed == s.closed && (HasRounds(s, 2) ==> HasRounds(s', 1))
    ensures s'.redel == s.redel && s'.now == s.now && Keeps(s.pending, s'.pending)
    ensures forall m :: m in s.backlog || (s.dist.pc.Received? && m in s.dist.todo) ==> m in s'.dist.todo
  {
    assert Shape(c, s) && Listing(s);
    hide Good, Reaches;
    var s1 := s;
    ReachesItself(c, s);
    if !s.dist.pc.Received? {
      var idle := FinishAll(c, s, Distributor);
      s1 := NextMessage(c, idle);
      ReachesOn(c, s, idle, s1);
    }
    assert s1.dist.todo != [] by { GoodShape(c, s1); }
    s' := Take(c, s1, Looped(Dispatch));
    ReachesOn(c, s, s1, s');
  }

  lemma GoodShape(c: Config, s: State)
    requires Good(c, s)
    ensures Shape(c, s)
  {
  }

  // ------------------------------------------------------ in somebody's hand

  /** About to send to an open subscriber, once that has taken a message if it is full. */
  lemma OpenSendingCanSend(c: Config, s: State, who: Actor, m: Message)
    requires Calm(c, s) && WorkerOf(s, who).todo != [] && WorkerOf(s, who).todo[0] == m
    requires WorkerOf(s, who).pc.Sending? && OpenAt(s.table, WorkerOf(s, who).pc.sub)
    ensures CanSend(c, s, m)
  {
    var h := WorkerOf(s, who).pc.sub;
    assert Shape(c, s);
    hide Good, Reaches, Count;
    var s1 := s;
    ReachesItself(c, s);
    if |s.table[h].channel| >= c.bufferSize {
      s1 := Take(c, s, Called(TakeFrom(h)));
    }
    var s2 := Take(c, s1, Delivered(who, SendOk));
    CountSnoc(s1.hist.sent, m, m);
    CanSendNow(c, s1, s2, m);
    CanSendVia(c, s, s1, m);
  }

  lemma CanSendNow(c: Config, s: State, s': State, m: Message)
    requires Reaches(c, s, s') && Count(s'.hist.sent, m) > Count(s.hist.sent, m)
    ensures CanSend(c, s, m)
  {
  }

  lemma TopCanSend(c: Config, s: State, who: Actor, m: Message)
    requires Calm(c, s) && WorkerOf(s, who).pc.Top? && WorkerOf(s, who).todo != [] && WorkerOf(s, who).todo[0] == m
    ensures CanSend(c, s, m)
  {
    hide Good, Reaches, CanSend;
    var s1 := EnsureSubscriber(c, s);
    GoodShape(c, s1);
    var s2 := Take(c, s1, Delivered(who, ReadLock));
    var s3 := Release(c, s2, who);
    ReachesOn(c, s1, s2, s3);
    ReachesOn(c, s, s1, s3);
    OpenSendingCanSend(c, s3, who, m);
    CanSendVia(c, s, s3, m);
  }

  /** Behind others, with the first of them about to be delivered. */
  lemma {:induction false} InHandCanSend(c: Config, s: State, who: Actor, j: nat, m: Message)
    requires Calm(c, s) && WorkerOf(s, who).pc.Top? && j < |WorkerOf(s, who).todo| && WorkerOf(s, who).todo[j] == m
    ensures CanSend(c, s, m)
    decreases j
  {
    hide Good, Reaches, CanSend;
    if j == 0 {
      TopCanSend(c, s, who, m);
    } else {
      var s1 := FinishHead(c, s, who);
      InHandCanSend(c, s1, who, j - 1, m);
      CanSendVia(c, s, s1, m);
    }
  }

  lemma BacklogCanSend(c: Config, s: State, m: Message)
    requires Calm(c, s) && m in s.backlog && HasRounds(s, 1)
    ensures CanSend(c, s, m)
  {
    hide Good, Reaches, CanSend, Keeps;
    var s1 := EnsureSubscriber(c, s);
    var s2 := Flush(c, s1);
    var j :| 0 <= j < |s2.dist.todo| && s2.dist.todo[j] == m;
    InHandCanSend(c, s2, Distributor, j, m);
    ReachesOn(c, s, s1, s2);
    CanSendVia(c, s, s2, m);
  }

  lemma ReceivedCanSend(c: Config, s: State, m: Message)
    requires Calm(c, s) && s.dist.pc.Received? && m in s.dist.todo
    ensures CanSend(c, s, m)
  {
    hide Good, Reaches, CanSend, Keeps;
    var s1 := EnsureSubscriber(c, s);
    var s2 := Flush(c, s1);
    var j :| 0 <= j < |s2.dist.todo| && s2.dist.todo[j] == m;
    InHandCanSend(c, s2, Distributor, j, m);
    ReachesOn(c, s, s1, s2);
    CanSendVia(c, s, s2, m);
  }

  /** The distributor can empty the backlog while the redelivery loop stands still. */
  lemma MakeRoom(c: Config, s: State) returns (s': State)
    requires Calm(c, s) && HasRounds(s, 1)
    ensures Calm(c, s') && Reaches(c, s, s') && s'.redel == s.redel && s'.backlog == []
    ensures HasRounds(s, 2) ==> HasRounds(s', 1)
  {
    hide Good, Reaches, Keeps;
    var s1 := EnsureSubscriber(c, s);
    s' := Flush(c, s1);
    ReachesOn(c, s, s1, s');
  }

  /** About to be given up, with room in the backlog. */
  lemma BufferedCanSend(c: Config, s: State, who: Actor, m: Message)
    requires Calm(c, s) && (WorkerOf(s, who).pc.NoSubscribers? || WorkerOf(s, who).pc.Exhausted?)
    requires WorkerOf(s, who).todo != [] && WorkerOf(s, who).todo[0] == m
    requires |s.backlog| < c.MaxUndelivered() && HasRounds(s, 1)
    ensures CanSend(c, s, m)
  {
    hide Good, Reaches, CanSend;
    var s1 := Take(c, s, Delivered(who, BufferHeld));
    BacklogCanSend(c, s1, m);
    CanSendVia(c, s, s1, m);
  }

  /** About to be given up, with room in the backlog or somebody to make it. */
  lemma GivenUpCanSend(c: Config, s: State, who: Actor, m: Message)
    requires Calm(c, s) && (WorkerOf(s, who).pc.NoSubscribers? || WorkerOf(s, who).pc.Exhausted?)
    requires WorkerOf(s, who).todo != [] && WorkerOf(s, who).todo[0] == m
    requires |s.backlog| < c.MaxUndelivered() || who.Redeliverer?
    requires HasRounds(s, RoundsToBuffer(c, s))
    ensures CanSend(c, s, m)
  {
    assert c.bufferSize > 0;
    hide Good, Reaches, CanSend;
    if |s.backlog| < c.MaxUndelivered() {
      BufferedCanSend(c, s, who, m);
    } else {
      var s1 := MakeRoom(c, s);
      BufferedCanSend(c, s1, who, m);
      CanSendVia(c, s, s1, m);
    }
  }

  lemma SendingCanSend(c: Config, s: State, who: Actor, m: Message)
    requires Calm(c, s) && WorkerOf(s, who).pc.Sending? && WorkerOf(s, who).todo != [] && WorkerOf(s, who).todo[0] == m
    requires !PastSaving(c, s, m) && !Stranded(c, s, m)
    ensures CanSend(c, s, m)
  {
    assert Shape(c, s);
    hide Good, Reaches, CanSend;
    if OpenAt(s.table, WorkerOf(s, who).pc.sub) {
      OpenSendingCanSend(c, s, who, m);
    } else {
      var s1 := Take(c, s, Delivered(who, SendRefused));
      if WorkerOf(s1, who).pc.Top? {
        TopCanSend(c, s1, who, m);
      } else {
        GivenUpCanSend(c, s1, who, m);
      }
      CanSendVia(c, s, s1, m);
    }
  }

  // ---------------------------------------------------------- past saving

  /** The goroutine is bound to give the message up to the backlog. */
  predicate BoundToBuffer(s: State, w: Worker, m: Message) {
    && w.todo != [] && w.todo[0] == m
    && match w.pc
       case NoSubscribers => true
       case Exhausted => true
       case Sending(attempts, sub) => attempts + 1 >= MAX_RETRIES && !OpenAt(s.table, sub)
       case _ => false
  }

  /** The distributor is, and the backlog is full: only the distributor could flush it. */
  predicate BoundToDrop(c: Config, s: State, m: Message) {
    BoundToBuffer(s, s.dist, m) && |s.backlog| >= c.MaxUndelivered()
  }

  /** The message is pending and too old to be redelivered. */
  predicate BoundToExpire(c: Config, s: State, m: Message) {
    m.id in s.pending && s.pending[m.id].message == m && c.Expires(s.now - s.pending[m.id].deliveredAt)
  }

  /** The redelivery loop is about to buffer a batch in which the message stands
      behind more messages than the backlog can ever hold. */
  predicate BoundToOverflow(c: Config, s: State, m: Message) {
    s.redel.pc.Requeue? && m in s.redel.todo && m !in s.redel.todo[..Least(c.MaxUndelivered(), |s.redel.todo|)]
  }

  function Least(a: nat, b: nat): nat {
    if a < b then a else b
  }

  predicate PastSaving(c: Config, s: State, m: Message) {
    BoundToDrop(c, s, m) || BoundToExpire(c, s, m) || BoundToOverflow(c, s, m)
  }

  // ------------------------------------------------------------ stranded

  /** A message that is to be buffered needs one round of the distributor to get
      out of the backlog again, and one before it if the backlog is full. */
  function RoundsToBuffer(c: Config, s: State): nat {
    if |s.backlog| < c.MaxUndelivered() then 1 else 2
  }

  /** The backlog has room for the message and for those of its batch before it. */
  predicate Fits(c: Config, s: State, m: Message) {
    m in s.redel.todo[..Least(Room(c, s), |s.redel.todo|)]
  }

  function Room(c: Config, s: State): nat {
    if |s.backlog| < c.MaxUndelivered() then c.MaxUndelivered() - |s.backlog| else 0
  }

  predicate StuckInBacklog(s: State, m: Message) {
    m in s.backlog && Rounds(s) < 1
  }

  predicate StuckInHand(s: State, m: Message) {
    BoundToBuffer(s, s.dist, m) && Rounds(s) < 1
  }

  predicate StuckAgain(c: Config, s: State, m: Message) {
    BoundToBuffer(s, s.redel, m) && Rounds(s) < RoundsToBuffer(c, s)
  }

  predicate StuckInBatch(c: Config, s: State, m: Message) {
    s.redel.pc.Requeue? && m in s.redel.todo && Rounds(s) < if Fits(c, s, m) then 1 else 2
  }

  /** Pending, or about to be, with no sweep to come. */
  predicate NeverSwept(s: State, m: Message) {
    && s.redel.pc.Stopped?
    && ((m.id in s.pending && s.pending[m.id].message == m)
        || (s.dist.todo != [] && s.dist.todo[0] == m && s.dist.pc.Tracking?))
  }

  /** The queue is closed and what the message would need to be sent will not come. */
  predicate Stranded(c: Config, s: State, m: Message) {
    && s.closed
    && (s.subscribers == [] || StuckInBacklog(s, m) || StuckInHand(s, m) || StuckAgain(c, s, m)
        || StuckInBatch(c, s, m) || NeverSwept(s, m))
  }

  // ----------------------------------------------------------------- pending

  lemma {:induction false} ListSet(keys: set<string>) returns (ids: seq<string>)
    ensures Lists(ids, keys)
    decreases |keys|
  {
    if keys == {} {
      ids := [];
    } else {
      var id :| id in keys;
      var rest := ListSet(keys - {id});
      ids := [id] + rest;
      assert forall x :: x in ids <==> x == id || x in rest;
    }
  }

  lemma {:induction false} MessagesOfHas(pending: map<string, Pending>, ids: seq<string>, id: string) returns (j: nat)
    requires (forall x :: x in ids ==> x in pending) && id in ids
    ensures j < |MessagesOf(pending, ids)| && MessagesOf(pending, ids)[j] == pending[id].message
  {
    if ids[0] == id {
      j := 0;
    } else {
      var k := MessagesOfHas(pending, ids[1..], id);
      j := k + 1;
    }
  }

  /** The redelivery loop finishes its round. */
  lemma FinishRound(c: Config, s: State) returns (s': State)
    requires Calm(c, s) && !s.redel.pc.Stopped?
    ensures Calm(c, s') && Reaches(c, s, s') && s'.redel.pc.Idle? && s'.now == s.now && Keeps(s.pending, s'.pending)
  {
    assert Shape(c, s) && Listing(s);
    hide Good, Reaches;
    if s.redel.pc.Requeue? {
      BufferAllOnly(c, s.(redel := Worker([], Idle)), s.redel.todo);
      s' := Take(c, s, Looped(RequeueAll));
    } else {
      s' := FinishAll(c, s, Redeliverer);
    }
  }

  /** The message is timed out by the next sweep. */
  lemma LateCanSend(c: Config, s: State, m: Message)
    requires Calm(c, s) && s.redel.pc.Idle? && s.subscribers != []
    requires m.id in s.pending && s.pending[m.id].message == m && c.TimesOut(s.now - s.pending[m.id].deliveredAt)
    ensures CanSend(c, s, m)
  {
    var late, gone := LateIds(c, s.pending, s.now), ExpiredIds(c, s.pending, s.now);
    var timeouts := ListSet(late);
    var expiries := ListSet(gone);
    assert m.id in late && m.id in timeouts;
    var j := MessagesOfHas(s.pending, timeouts, m.id);
    hide Good, Reaches, CanSend, LateIds, ExpiredIds, Lists, MessagesOf;
    var s1 := Take(c, s, Looped(Sweep(timeouts, expiries)));
    InHandCanSend(c, s1, Redeliverer, j, m);
    CanSendVia(c, s, s1, m);
  }

  lemma PendingCanSend(c: Config, s: State, m: Message)
    requires Calm(c, s) && 0 <= c.ackTimeout < c.pendingTtl
    requires m.id in s.pending && s.pending[m.id].message == m && !BoundToExpire(c, s, m) && !s.redel.pc.Stopped?
    ensures CanSend(c, s, m)
  {
    hide Good, Reaches, CanSend;
    var s1 := FinishRound(c, s);
    var s2 := EnsureSubscriber(c, s1);
    ReachesOn(c, s, s1, s2);
    var age := s2.now - s2.pending[m.id].deliveredAt;
    var s3 := Take(c, s2, Called(Tick(if age <= c.ackTimeout then c.ackTimeout + 1 - age else 0)));
    LateCanSend(c, s3, m);
    ReachesOn(c, s, s2, s3);
    CanSendVia(c, s, s3, m);
  }

  /** Sent and not yet tracked, and pending has room. */
  lemma TrackedCanSend(c: Config, s: State, who: Actor, m: Message)
    requires Calm(c, s) && WorkerOf(s, who).pc.Tracking? && WorkerOf(s, who).todo != [] && WorkerOf(s, who).todo[0] == m
    requires 0 <= c.ackTimeout < c.pendingTtl && |s.pending| < c.MaxPending() && !s.redel.pc.Stopped?
    ensures CanSend(c, s, m)
  {
    GoodShape(c, s);
    hide Good, Reaches, CanSend;
    var s1 := Take(c, s, Delivered(who, Track));
    hide Shape;
    PendingCanSend(c, s1, m);
    CanSendVia(c, s, s1, m);
  }

  /** If it has none, an Ack of another entry makes room. */
  lemma TrackingCanSend(c: Config, s: State, who: Actor, m: Message)
    requires Calm(c, s) && WorkerOf(s, who).pc.Tracking? && WorkerOf(s, who).todo != [] && WorkerOf(s, who).todo[0] == m
    requires 0 <= c.ackTimeout < c.pendingTtl && !s.redel.pc.Stopped?
    ensures CanSend(c, s, m)
  {
    GoodShape(c, s);
    assert |s.pending| <= c.MaxPending() && c.MaxPending() > 0;
    hide Good, Reaches, CanSend, Shape;
    if |s.pending| >= c.MaxPending() {
      var id :| id in s.pending;
      var s1 := Take(c, s, Called(Ack(id, s.pending[id].consumerId)));
      OneLess(s.pending, id);
      TrackedCanSend(c, s1, who, m);
      CanSendVia(c, s, s1, m);
    } else {
      TrackedCanSend(c, s, who, m);
    }
  }

  lemma OneLess(pending: map<string, Pending>, id: string)
    requires id in pending
    ensures |pending - {id}| == |pending| - 1
  {
    assert (pending - {id}).Keys == pending.Keys - {id};
    assert |(pending - {id}).Keys| == |pending - {id}| && |pending.Keys| == |pending|;
  }

  // --------------------------------------------- batches, and the input channel

  /** What happens to each message of a batch that is buffered. */
  lemma {:induction false} BufferAllAt(c: Config, s: State, ms: seq<Message>, j: nat)
    requires j < |ms| && |s.backlog| <= c.MaxUndelivered()
    ensures var s' := BufferAll(c, s, ms);
            if |s.backlog| + j < c.MaxUndelivered() then ms[j] in s'.backlog else ms[j] in s'.hist.dropped
    decreases |ms|
  {
    var s1 := BufferOne(c, s, ms[0]);
    if j == 0 {
      BufferAllExtends(c, s1, ms[1..]);
      assert if |s.backlog| < c.MaxUndelivered() then ms[0] == s1.backlog[|s.backlog|] else ms[0] == s1.hist.dropped[|s.hist.dropped|];
    } else {
      BufferAllAt(c, s1, ms[1..], j - 1);
      if |s.backlog| == c.MaxUndelivered() { }
    }
  }

  /** A batch in which the message fits is buffered. */
  lemma FittingCanSend(c: Config, s: State, m: Message)
    requires Calm(c, s) && s.redel.pc.Requeue? && Fits(c, s, m) && HasRounds(s, 1)
    ensures CanSend(c, s, m)
  {
    GoodShape(c, s);
    var first := s.redel.todo[..Least(Room(c, s), |s.redel.todo|)];
    var j :| 0 <= j < |first| && first[j] == m;
    assert s.redel.todo[j] == m && |s.backlog| + j < c.MaxUndelivered() && |s.backlog| <= c.MaxUndelivered();
    hide Good, Reaches, CanSend, Shape, BufferAll;
    BufferAllAt(c, s.(redel := Worker([], Idle)), s.redel.todo, j);
    BufferAllOnly(c, s.(redel := Worker([], Idle)), s.redel.todo);
    var s1 := Take(c, s, Looped(RequeueAll));
    BacklogCanSend(c, s1, m);
    CanSendVia(c, s, s1, m);
  }

  lemma RequeueCanSend(c: Config, s: State, m: Message)
    requires Calm(c, s) && s.redel.pc.Requeue? && m in s.redel.todo && !BoundToOverflow(c, s, m)
    requires HasRounds(s, if Fits(c, s, m) then 1 else 2)
    ensures CanSend(c, s, m)
  {
    hide Good, Reaches, CanSend;
    if Fits(c, s, m) {
      FittingCanSend(c, s, m);
    } else {
      var s1 := MakeRoom(c, s);
      FittingCanSend(c, s1, m);
      CanSendVia(c, s, s1, m);
    }
  }

  /** In the hands of a goroutine inside `deliverMessage`. */
  lemma DeliveringCanSend(c: Config, s: State, who: Actor, m: Message)
    requires Calm(c, s) && Delivering(WorkerOf(s, who).pc) && m in WorkerOf(s, who).todo
    requires 0 <= c.ackTimeout < c.pendingTtl && !PastSaving(c, s, m) && !Stranded(c, s, m)
    ensures CanSend(c, s, m)
  {
    var w := WorkerOf(s, who);
    var j :| 0 <= j < |w.todo| && w.todo[j] == m;
    hide Good, Reaches, CanSend;
    if j > 0 {
      var s1 := FinishHead(c, s, who);
      InHandCanSend(c, s1, who, j - 1, m);
      CanSendVia(c, s, s1, m);
    } else if w.pc.Top? {
      TopCanSend(c, s, who, m);
    } else if w.pc.Sending? {
      SendingCanSend(c, s, who, m);
    } else if w.pc.Tracking? {
      TrackingCanSend(c, s, who, m);
    } else {
      GivenUpCanSend(c, s, who, m);
    }
  }

  /** The distributor finishes its round. */
  lemma FinishRoundOfDistributor(c: Config, s: State) returns (s': State)
    requires Calm(c, s)
    ensures Calm(c, s') && Reaches(c, s, s') && s'.dist.pc.Idle? && s'.input == s.input
  {
    assert Shape(c, s) && Listing(s);
    hide Good, Reaches;
    if s.dist.pc.Received? {
      var s1 := Take(c, s, Looped(Dispatch));
      s' := FinishAll(c, s1, Distributor);
      ReachesOn(c, s, s1, s');
    } else {
      s' := FinishAll(c, s, Distributor);
    }
  }

  lemma {:induction false} InputCanSend(c: Config, s: State, j: nat, m: Message)
    requires Calm(c, s) && j < |s.input| && s.input[j] == m
    ensures CanSend(c, s, m)
    decreases j
  {
    hide Good, Reaches, CanSend;
    var s1 := FinishRoundOfDistributor(c, s);
    var s2 := NextMessage(c, s1);
    if j == 0 {
      ReceivedCanSend(c, s2, m);
    } else {
      InputCanSend(c, s2, j - 1, m);
    }
    ReachesOn(c, s, s1, s2);
    CanSendVia(c, s, s2, m);
  }

  // ------------------------------------------------------------ main results

  lemma CalmHeldCanSend(c: Config, s: State, m: Message)
    requires Calm(c, s) && 0 <= c.ackTimeout < c.pendingTtl && Held(s, m) >= 1
    requires !PastSaving(c, s, m) && !Stranded(c, s, m)
    ensures CanSend(c, s, m)
  {
    assert Shape(c, s) && Listing(s);
    CountIn(s.input, m);
    CountIn(s.dist.todo, m);
    CountIn(s.redel.todo, m);
    CountIn(s.backlog, m);
    hide Good, CanSend, PastSaving, Count;
    if m in s.input {
      var j :| 0 <= j < |s.input| && s.input[j] == m;
      InputCanSend(c, s, j, m);
    } else if m in s.dist.todo {
      if s.dist.pc.Received? { ReceivedCanSend(c, s, m); } else { DeliveringCanSend(c, s, Distributor, m); }
    } else if m in s.redel.todo {
      if s.redel.pc.Requeue? {
        assert !BoundToOverflow(c, s, m) by { NotPastSaving(c, s, m); }
        RequeueCanSend(c, s, m);
      } else {
        DeliveringCanSend(c, s, Redeliverer, m);
      }
    } else if m in s.backlog {
      BacklogCanSend(c, s, m);
    } else {
      assert !BoundToExpire(c, s, m) by { NotPastSaving(c, s, m); }
      PendingCanSend(c, s, m);
    }
  }

  lemma NotPastSaving(c: Config, s: State, m: Message)
    requires !PastSaving(c, s, m)
    ensures !BoundToOverflow(c, s, m) && !BoundToExpire(c, s, m) && !BoundToDrop(c, s, m)
  {
  }

  /** Letting go of the read lock changes nothing about a message. */
  lemma ReleaseKeepsFate(c: Config, s: State, who: Actor, m: Message) returns (s': State)
    requires Good(c, s) && !PastSaving(c, s, m) && !Stranded(c, s, m)
    ensures Good(c, s') && Reaches(c, s, s') && !WorkerOf(s', who).HoldsReadLock()
    ensures Held(s', m) == Held(s, m) && !PastSaving(c, s', m) && !Stranded(c, s', m)
    ensures if who.Distributor? then s'.redel == s.redel else s'.dist == s.dist
  {
    hide Good, Reaches, Count;
    s' := Release(c, s, who);
  }

  /** Whatever the queue holds, and is neither past saving nor stranded, can still be sent. */
  lemma HeldCanSend(c: Config, s: State, m: Message)
    requires Good(c, s) && 0 <= c.ackTimeout < c.pendingTtl && Held(s, m) >= 1
    requires !PastSaving(c, s, m) && !Stranded(c, s, m)
    ensures CanSend(c, s, m)
  {
    hide Good, Reaches, CanSend, PastSaving, Held;
    var s1 := ReleaseKeepsFate(c, s, Distributor, m);
    var s2 := ReleaseKeepsFate(c, s1, Redeliverer, m);
    CalmHeldCanSend(c, s2, m);
    ReachesOn(c, s, s1, s2);
    CanSendVia(c, s, s2, m);
  }
}
