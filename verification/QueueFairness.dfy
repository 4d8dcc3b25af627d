/** Round-robin over runs of the queue: whom the goroutines pick and try while
    everybody else publishes, consumes, acknowledges and times out. */
module QueueFairness {
  import opened DivMod
  import opened Domain
  import opened QueueTypes
  import opened QueueProtocol
  import opened QueueShape
  import opened QueueReach
  import RoundRobin

  /** Between looking a subscriber up and writing the cursor. */
  predicate MidPick(w: Worker) {
    w.pc.Looked? || w.pc.Computed?
  }

  predicate Writes(a: Action, who: Actor) {
    a == Delivered(who, WriteCursor)
  }

  predicate Tries(a: Action, who: Actor) {
    a == Delivered(who, SendOk) || a == Delivered(who, SendRefused)
  }

  /** The subscriber `who` has in view, if any. */
  function InView(w: Worker): seq<nat> {
    if w.pc.Computed? || w.pc.Sending? then [w.pc.sub] else []
  }

  /** The subscriber that `who` picks in step `k` of a run, if it does. */
  function PickAt(r: Run, who: Actor, k: nat): seq<nat>
    requires k < |r.actions| && k < |r.states|
  {
    if Writes(r.actions[k], who) then InView(WorkerOf(r.states[k], who)) else []
  }

  /** The subscriber that `who` tries to send to in step `k`, if it does. */
  function TryAt(r: Run, who: Actor, k: nat): seq<nat>
    requires k < |r.actions| && k < |r.states|
  {
    if Tries(r.actions[k], who) then InView(WorkerOf(r.states[k], who)) else []
  }

  /** The subscribers picked from `i` to `j` by either goroutine, in order. */
  function Picks(r: Run, i: nat, j: nat): seq<nat>
    requires i <= j <= |r.actions| <= |r.states|
    decreases j
  {
    if i == j then [] else Picks(r, i, j - 1) + (PickAt(r, Distributor, j - 1) + PickAt(r, Redeliverer, j - 1))
  }

  lemma PicksSnoc(r: Run, i: nat, k: nat)
    requires i <= k < |r.actions| < |r.states|
    ensures Picks(r, i, k + 1) == Picks(r, i, k) + (PickAt(r, Distributor, k) + PickAt(r, Redeliverer, k))
  {
  }

  function PicksOf(r: Run, who: Actor, i: nat, j: nat): seq<nat>
    requires i <= j <= |r.actions| <= |r.states|
    decreases j
  {
    if i == j then [] else PicksOf(r, who, i, j - 1) + PickAt(r, who, j - 1)
  }

  lemma PicksOfSnoc(r: Run, who: Actor, i: nat, k: nat)
    requires i <= k < |r.actions| < |r.states|
    ensures PicksOf(r, who, i, k + 1) == PicksOf(r, who, i, k) + PickAt(r, who, k)
  {
  }

  /** The subscribers that `who` has tried to send to, in order. */
  function TriesOf(r: Run, who: Actor, i: nat, j: nat): seq<nat>
    requires i <= j <= |r.actions| <= |r.states|
    decreases j
  {
    if i == j then [] else TriesOf(r, who, i, j - 1) + TryAt(r, who, j - 1)
  }

  /** The subscribers to which `who` has sent, in order. */
  function SendsOf(r: Run, who: Actor, i: nat, j: nat): seq<nat>
    requires i <= j <= |r.actions| <= |r.states|
    decreases j
  {
    if i == j then []
    else
      SendsOf(r, who, i, j - 1)
      + if r.actions[j - 1] == Delivered(who, SendOk) then InView(WorkerOf(r.states[j - 1], who)) else []
  }

  // --------------------------------------------------- what a step can change

  lemma DeliveryCursor(c: Config, s: State, who: Actor, step: DeliveryStep)
    requires WorkerOk(WorkerOf(s, who), |s.subscribers|, |s.table|) && DeliveryEnabled(c, s, WorkerOf(s, who), step)
    ensures ApplyDelivery(c, s, who, step).cursor == if step.WriteCursor? then WorkerOf(s, who).pc.next else s.cursor
  {
    assert !step.ClampCursor?;
    hide WorkerOk, NextPc;
  }

  /** Only a write moves the cursor, as long as the subscribers stay the same. */
  lemma CursorStep(c: Config, s: State, a: Action)
    requires Shape(c, s) && Enabled(c, s, a) && s.subscribers != [] && Apply(c, s, a).subscribers == s.subscribers
    ensures Apply(c, s, a).cursor ==
            if a.Delivered? && a.step.WriteCursor? then WorkerOf(s, a.who).pc.next else s.cursor
  {
    match a
    case Called(call) => CallCursor(c, s, call);
    case Looped(step) => LoopCursor(c, s, step);
    case Delivered(who, step) =>
      hide ApplyDelivery;
      DeliveryCursor(c, s, who, step);
  }

  lemma CallCursor(c: Config, s: State, call: Call)
    requires HandlesOk(s.subscribers, |s.table|) && CallEnabled(s, call) && ApplyCall(c, s, call).subscribers == s.subscribers
    ensures ApplyCall(c, s, call).cursor == s.cursor
  {
    if call.Cleanup? { RemoveKeepsOthers(s.subscribers, call.sub); }
    hide Lists, MessagesOf, ShutAll;
  }

  lemma LoopCursor(c: Config, s: State, step: LoopStep)
    requires LoopEnabled(c, s, step)
    ensures ApplyLoop(c, s, step).cursor == s.cursor
  {
    hide Lists, MessagesOf, ShutAll, LateIds, ExpiredIds;
    if step.RequeueAll? { BufferAllOnly(c, s.(redel := Worker([], Idle)), s.redel.todo); }
  }

  predicate Picking(w: Worker) {
    MidPick(w) || w.pc.Sending?
  }

  lemma LoopKeepsPicks(c: Config, s: State, step: LoopStep, who: Actor)
    requires LoopEnabled(c, s, step)
    ensures var w, w' := WorkerOf(s, who), WorkerOf(ApplyLoop(c, s, step), who); w' == w || (!Picking(w) && !Picking(w'))
  {
    match step
    case Sweep(timeouts, expiries) =>
      hide Lists, MessagesOf, LateIds, ExpiredIds;
    case RequeueAll =>
      hide BufferAll;
      BufferAllOnly(c, s.(redel := Worker([], Idle)), s.redel.todo);
    case _ => hide ShutAll;
  }

  /** A step that is not a delivery step of `who` leaves its pick alone. */
  lemma OtherStep(c: Config, s: State, a: Action, who: Actor)
    requires Enabled(c, s, a) && !(a.Delivered? && a.who == who)
    ensures var w, w' := WorkerOf(s, who), WorkerOf(Apply(c, s, a), who); w' == w || (!Picking(w) && !Picking(w'))
  {
    hide Picking, ApplyDelivery, ApplyLoop;
    match a
    case Called(call) => CallKeepsWorkers(c, s, call);
    case Looped(step) => LoopKeepsPicks(c, s, step, who);
    case Delivered(other, step) =>
      assert other == Other(who);
      OtherDelivery(c, s, step, who);
  }

  /** What a delivery step of `who` does to its pick. */
  lemma OwnStep(c: Config, s: State, who: Actor, step: DeliveryStep)
    requires Shape(c, s) && DeliveryEnabled(c, s, WorkerOf(s, who), step)
    ensures var w, w' := WorkerOf(s, who), WorkerOf(ApplyDelivery(c, s, who, step), who);
            && (MidPick(w') ==> step.Lookup? || step.ReadCursor?)
            && (step.Lookup? ==> s.cursor < |s.subscribers| && w'.pc.Looked? && w'.pc.sub == s.subscribers[s.cursor])
            && (step.ReadCursor? ==> w.pc.Looked? && w'.pc.Computed? && w'.pc.sub == w.pc.sub
                                     && w'.pc.next == (s.cursor + 1) % |s.subscribers|)
            && (step.WriteCursor? ==> w.pc.Computed? && w'.pc.Sending? && w'.pc.sub == w.pc.sub)
            && (w'.pc.Sending? ==> step.WriteCursor?)
            && (step.SendOk? || step.SendRefused? <==> w.pc.Sending?)
  {
    assert WorkerOk(WorkerOf(s, who), |s.subscribers|, |s.table|) && CursorOk(s.cursor, |s.subscribers|, s.closed);
    hide Shape, ApplyDelivery;
    WorkerAfter(c, s, who, step);
  }

  // ----------------------------------------------------- picks of a segment

  /** A stretch of a run over which the list of subscribers stays the same. */
  ghost predicate Steady(c: Config, r: Run, i: nat, j: nat) {
    && c.bufferSize > 0 && IsRun(c, r) && i <= j < |r.states| && r.states[i].subscribers != []
    && forall k :: i <= k <= j ==> r.states[k].subscribers == r.states[i].subscribers
  }

  /** `who` writes the cursor somewhere from `k` on, before `j`. */
  ghost predicate WritesLater(r: Run, who: Actor, k: nat, j: nat) {
    exists l :: k <= l < j && l < |r.actions| && Writes(r.actions[l], who)
  }

  /** No write of the cursor falls into a pick of the other goroutine, unless that
      pick is not completed before `j`; and no completed pick was under way at `i`. */
  ghost predicate PicksApart(r: Run, i: nat, j: nat)
    requires j <= |r.actions| <= |r.states|
  {
    && (forall who :: WritesLater(r, who, i, j) && i < |r.states| ==> !MidPick(WorkerOf(r.states[i], who)))
    && (forall who, k :: i <= k < j && Writes(r.actions[k], who) && WritesLater(r, Other(who), k + 1, j) ==>
          !MidPick(WorkerOf(r.states[k], Other(who))))
  }

  /** The pick under way goes by the cursor as it still is. */
  predicate FreshPick(s: State, w: Worker) {
    && (MidPick(w) ==> s.cursor < |s.subscribers| && w.pc.sub == s.subscribers[s.cursor])
    && (w.pc.Computed? ==> s.subscribers != [] && w.pc.next == (s.cursor + 1) % |s.subscribers|)
  }

  /** A pick that no write disturbs stays fresh. */
  lemma PickStaysFresh(c: Config, s: State, a: Action, who: Actor)
    requires Shape(c, s) && Enabled(c, s, a) && s.subscribers != [] && Apply(c, s, a).subscribers == s.subscribers
    requires FreshPick(s, WorkerOf(s, who))
    requires Writes(a, Other(who)) ==> !MidPick(WorkerOf(s, who))
    ensures FreshPick(Apply(c, s, a), WorkerOf(Apply(c, s, a), who))
  {
    CursorStep(c, s, a);
    hide Shape, Apply;
    if a.Delivered? && a.who == who {
      assert Apply(c, s, a) == ApplyDelivery(c, s, who, a.step) by { DeliveredIs(c, s, a); }
      OwnStep(c, s, who, a.step);
    } else {
      OtherStep(c, s, a, who);
    }
  }

  lemma DeliveredIs(c: Config, s: State, a: Action)
    requires Enabled(c, s, a) && a.Delivered?
    ensures Apply(c, s, a) == ApplyDelivery(c, s, a.who, a.step)
  {
  }

  ghost predicate GoRound(subscribers: seq<nat>, start: nat, picks: seq<nat>)
    requires subscribers != []
  {
    forall x :: 0 <= x < |picks| ==> picks[x] == subscribers[(start + x) % |subscribers|]
  }

  /** A write that completes a pick made by a cursor that has moved since. */
  predicate StaleWrite(s: State, a: Action) {
    a.Delivered? && a.step.WriteCursor? && !FreshPick(s, WorkerOf(s, a.who))
  }

  /** The picks from `i` to `k`, and the cursor, have gone round. */
  ghost predicate InTurn(r: Run, i: nat, k: nat)
    requires i <= k <= |r.actions| < |r.states| && r.states[i].subscribers != []
  {
    TurnOf(r.states[i].subscribers, r.states[i].cursor, Picks(r, i, k), r.states[k].cursor)
  }

  ghost predicate TurnOf(subs: seq<nat>, start: nat, picks: seq<nat>, cursor: nat)
    requires subs != []
  {
    GoRound(subs, start, picks) && cursor == (start + |picks|) % |subs|
  }

  /** What a write does to a sequence of picks that goes round. */
  lemma TurnGoesOnIff(subs: seq<nat>, start: nat, picks: seq<nat>, h: nat, cursor: nat, next: nat)
    requires subs != [] && TurnOf(subs, start, picks, cursor)
    ensures TurnOf(subs, start, picks + [h], next) <==> h == subs[cursor] && next == (cursor + 1) % |subs|
  {
    ModAddOne(start + |picks|, |subs|);
    if GoRound(subs, start, picks + [h]) { assert (picks + [h])[|picks|] == h; }
  }

  /** What one action adds to the picks and does to the cursor. */
  lemma StepPicks(c: Config, r: Run, i: nat, j: nat, k: nat)
    requires Steady(c, r, i, j) && i <= k < j
    ensures r.states[k].subscribers == r.states[i].subscribers && r.states[k].cursor < |r.states[k].subscribers|
    ensures var s, a := r.states[k], r.actions[k];
            var picked := PickAt(r, Distributor, k) + PickAt(r, Redeliverer, k);
            if a.Delivered? && a.step.WriteCursor?
            then var pc := WorkerOf(s, a.who).pc; pc.Computed? && picked == [pc.sub] && r.states[k + 1].cursor == pc.next
            else picked == [] && r.states[k + 1].cursor == s.cursor
  {
    var s, a := r.states[k], r.actions[k];
    RunKeepsShape(c, r, k);
    assert Steps(c, s, a, r.states[k + 1]);
    assert s.subscribers == r.states[i].subscribers && r.states[k + 1].subscribers == r.states[i].subscribers;
    assert s.cursor < |s.subscribers|;
    CursorStep(c, s, a);
    hide Shape, Apply, Steady, IsRun;
    if a.Delivered? && a.step.WriteCursor? { assert WorkerOf(s, a.who).pc.Computed?; }
  }

  lemma StepInTurnIff(c: Config, r: Run, i: nat, j: nat, k: nat)
    requires Steady(c, r, i, j) && i <= k < j && InTurn(r, i, k)
    ensures InTurn(r, i, k + 1) <==> !StaleWrite(r.states[k], r.actions[k])
  {
    var s, a := r.states[k], r.actions[k];
    assert i <= j <= |r.actions| < |r.states| && r.states[i].subscribers != [];
    hide IsRun, PickAt, Picks, TurnOf, WorkerOf, Steady;
    StepPicks(c, r, i, j, k);
    PicksSnoc(r, i, k);
    var subs, start, picks := r.states[i].subscribers, r.states[i].cursor, Picks(r, i, k);
    assert picks + [] == picks;
    if a.Delivered? && a.step.WriteCursor? {
      var pc := WorkerOf(s, a.who).pc;
      TurnGoesOnIff(subs, start, picks, pc.sub, s.cursor, pc.next);
    }
  }

  lemma StartsInTurn(c: Config, r: Run, i: nat)
    requires c.bufferSize > 0 && IsRun(c, r) && i < |r.states| && r.states[i].subscribers != []
    ensures InTurn(r, i, i)
  {
    RunKeepsShape(c, r, i);
    DivModUnique(r.states[i].cursor, 0, r.states[i].cursor, |r.states[i].subscribers|);
  }

  ghost predicate StepKeepsTurn(r: Run, i: nat, k: nat)
    requires i <= k < |r.actions| < |r.states| && r.states[i].subscribers != []
  {
    InTurn(r, i, k) ==> InTurn(r, i, k + 1)
  }

  lemma {:induction false} TurnInduction(r: Run, i: nat, k: nat)
    requires i <= k <= |r.actions| < |r.states| && r.states[i].subscribers != [] && InTurn(r, i, i)
    requires forall l :: i <= l < k ==> StepKeepsTurn(r, i, l)
    ensures InTurn(r, i, k)
    decreases k
  {
    if k > i {
      hide InTurn;
      TurnInduction(r, i, k - 1);
      assert StepKeepsTurn(r, i, k - 1);
    }
  }

  lemma StaysInTurn(c: Config, r: Run, i: nat, j: nat, k: nat)
    requires Steady(c, r, i, j) && i <= k <= j
    requires forall l :: i <= l < j ==> !StaleWrite(r.states[l], r.actions[l])
    ensures InTurn(r, i, k)
  {
    StartsInTurn(c, r, i);
    hide InTurn, StaleWrite;
    forall l | i <= l < k ensures StepKeepsTurn(r, i, l) {
      if InTurn(r, i, l) { StepInTurnIff(c, r, i, j, l); }
    }
    TurnInduction(r, i, k);
  }

  /** Over any stretch with the same subscribers, picks and cursor go round all the
      way if and only if no write completes a pick made by a cursor that the other
      goroutine has moved since. */
  lemma GoesRoundIffNoStaleWrite(c: Config, r: Run, i: nat, j: nat)
    requires Steady(c, r, i, j)
    ensures (forall k :: i <= k <= j ==> InTurn(r, i, k)) <==>
            (forall k :: i <= k < j ==> !StaleWrite(r.states[k], r.actions[k]))
  {
    hide InTurn, StaleWrite;
    if forall k :: i <= k < j ==> !StaleWrite(r.states[k], r.actions[k]) {
      forall k | i <= k <= j ensures InTurn(r, i, k) { StaysInTurn(c, r, i, j, k); }
    } else if forall k :: i <= k <= j ==> InTurn(r, i, k) {
      var k :| i <= k < j && StaleWrite(r.states[k], r.actions[k]);
      assert InTurn(r, i, k);
      var next := k + 1;
      assert InTurn(r, i, next);
      StepInTurnIff(c, r, i, j, k);
      assert false;
    }
  }

  // ------------------------------------------------------ picks kept apart

  /** If `who` completes a pick from `k` on, what it has under way goes by the cursor. */
  ghost predicate FreshIfCompleted(r: Run, who: Actor, k: nat, j: nat) {
    WritesLater(r, who, k, j) && k < |r.states| ==> FreshPick(r.states[k], WorkerOf(r.states[k], who))
  }

  lemma LaterIsLater(r: Run, who: Actor, k: nat, j: nat)
    requires WritesLater(r, who, k + 1, j)
    ensures WritesLater(r, who, k, j)
  {
  }

  lemma NextPickStaysFresh(c: Config, r: Run, i: nat, j: nat, k: nat, who: Actor)
    requires Steady(c, r, i, j) && PicksApart(r, i, j) && i <= k < j && WritesLater(r, who, k + 1, j)
    requires WritesLater(r, who, k, j) ==> FreshPick(r.states[k], WorkerOf(r.states[k], who))
    ensures FreshPick(r.states[k + 1], WorkerOf(r.states[k + 1], who))
  {
    var s, a := r.states[k], r.actions[k];
    RunKeepsShape(c, r, k);
    assert Steps(c, s, a, r.states[k + 1]);
    assert s.subscribers == r.states[i].subscribers && r.states[k + 1].subscribers == r.states[i].subscribers;
    LaterIsLater(r, who, k, j);
    if Writes(a, Other(who)) {
      assert Other(Other(who)) == who;
      assert !MidPick(WorkerOf(s, who));
    }
    hide Shape, Apply, Enabled, Steady, IsRun, PicksApart, WritesLater, FreshPick;
    PickStaysFresh(c, s, a, who);
  }

  lemma StartsFresh(c: Config, r: Run, i: nat, j: nat, who: Actor)
    requires Steady(c, r, i, j) && PicksApart(r, i, j)
    ensures FreshIfCompleted(r, who, i, j)
  {
    hide IsRun, WritesLater;
  }

  lemma FreshNext(c: Config, r: Run, i: nat, j: nat, k: nat, who: Actor)
    requires Steady(c, r, i, j) && PicksApart(r, i, j) && i <= k < j && FreshIfCompleted(r, who, k, j)
    ensures FreshIfCompleted(r, who, k + 1, j)
  {
    if WritesLater(r, who, k + 1, j) {
      LaterIsLater(r, who, k, j);
      assert |r.states| == |r.actions| + 1;
      hide FreshPick, WritesLater, Steady, PicksApart, IsRun;
      NextPickStaysFresh(c, r, i, j, k, who);
    }
  }

  lemma {:induction false} PicksStayFresh(c: Config, r: Run, i: nat, j: nat, k: nat, who: Actor)
    requires Steady(c, r, i, j) && PicksApart(r, i, j) && i <= k <= j
    ensures FreshIfCompleted(r, who, k, j)
    decreases k
  {
    assert |r.states| == |r.actions| + 1;
    hide FreshIfCompleted, Steady, PicksApart;
    if k == i {
      StartsFresh(c, r, i, j, who);
    } else {
      PicksStayFresh(c, r, i, j, k - 1, who);
      FreshNext(c, r, i, j, k - 1, who);
    }
  }

  /** Picks that are kept apart leave no stale write. */
  lemma ApartIsNeverStale(c: Config, r: Run, i: nat, j: nat, k: nat)
    requires Steady(c, r, i, j) && PicksApart(r, i, j) && i <= k < j
    ensures !StaleWrite(r.states[k], r.actions[k])
  {
    var a := r.actions[k];
    if a.Delivered? && a.step.WriteCursor? {
      PicksStayFresh(c, r, i, j, k, a.who);
      assert Writes(a, a.who);
      assert WritesLater(r, a.who, k, j);
    }
  }

  // ------------------------------------------------------------- fair shares

  lemma GoRoundTail(subscribers: seq<nat>, start: nat, picks: seq<nat>)
    requires subscribers != [] && picks != [] && GoRound(subscribers, start, picks)
    ensures picks[0] == subscribers[start % |subscribers|] && GoRound(subscribers, start + 1, picks[1..])
  {
    forall x | 0 <= x < |picks[1..]| ensures picks[1..][x] == subscribers[(start + 1 + x) % |subscribers|] {
      assert picks[1..][x] == picks[x + 1];
    }
  }

  lemma CountHead(picks: seq<nat>, h: nat)
    requires picks != []
    ensures multiset(picks)[h] == (if picks[0] == h then 1 else 0) + multiset(picks[1..])[h]
  {
    assert picks == [picks[0]] + picks[1..];
  }

  /** How often each subscriber occurs in a sequence that goes round. */
  lemma {:induction false} RoundIsTurns(subscribers: seq<nat>, start: nat, picks: seq<nat>, p: nat)
    requires p < |subscribers| && GoRound(subscribers, start, picks)
    requires forall x, y :: 0 <= x < y < |subscribers| ==> subscribers[x] != subscribers[y]
    ensures multiset(picks)[subscribers[p]] == RoundRobin.Turns(start, |picks|, |subscribers|, p)
    decreases |picks|
  {
    if picks != [] {
      GoRoundTail(subscribers, start, picks);
      hide GoRound;
      RoundIsTurns(subscribers, start + 1, picks[1..], p);
      CountHead(picks, subscribers[p]);
    }
  }

  /** Each subscriber has its share of a sequence: the n-th part, rounded down or up. */
  ghost predicate FairShares(subscribers: seq<nat>, given: multiset<nat>)
    requires subscribers != []
  {
    forall p :: 0 <= p < |subscribers| ==>
      |given| / |subscribers| <= given[subscribers[p]] <= (|given| + |subscribers| - 1) / |subscribers|
  }

  lemma RoundIsFair(subscribers: seq<nat>, start: nat, picks: seq<nat>)
    requires subscribers != [] && GoRound(subscribers, start, picks)
    requires forall x, y :: 0 <= x < y < |subscribers| ==> subscribers[x] != subscribers[y]
    ensures FairShares(subscribers, multiset(picks))
  {
    forall p | 0 <= p < |subscribers|
      ensures |picks| / |subscribers| <= multiset(picks)[subscribers[p]] <= (|picks| + |subscribers| - 1) / |subscribers|
    {
      RoundIsTurns(subscribers, start, picks, p);
      RoundRobin.TurnsAreFair(start, |picks|, |subscribers|, p);
    }
  }

  /** Over any stretch of any run in which the subscribers stay the same and no
      write of the cursor falls into the other goroutine's pick, the t-th pick of
      either goroutine is the subscriber t places on from the cursor, and each
      subscriber is picked its fair share of times, however long the stretch. */
  lemma PicksGoRound(c: Config, r: Run, i: nat, j: nat)
    requires Steady(c, r, i, j) && PicksApart(r, i, j)
    ensures GoRound(r.states[i].subscribers, r.states[i].cursor, Picks(r, i, j))
    ensures FairShares(r.states[i].subscribers, multiset(Picks(r, i, j)))
  {
    forall k | i <= k < j ensures !StaleWrite(r.states[k], r.actions[k]) { ApartIsNeverStale(c, r, i, j, k); }
    StaysInTurn(c, r, i, j, j);
    RunKeepsShape(c, r, i);
    RoundIsFair(r.states[i].subscribers, r.states[i].cursor, Picks(r, i, j));
  }

  // ---------------------------------------------------- from picks to attempts

  /** The subscriber `who` is about to try, if any. */
  function InFlight(w: Worker): seq<nat> {
    if w.pc.Sending? then [w.pc.sub] else []
  }

  /** A step makes a pick an attempt in flight, or an attempt in flight a try. */
  lemma PickOrTry(c: Config, s: State, a: Action, who: Actor)
    requires Shape(c, s) && Enabled(c, s, a)
    ensures var w, w' := WorkerOf(s, who), WorkerOf(Apply(c, s, a), who);
            InFlight(w) + (if Writes(a, who) then InView(w) else []) == (if Tries(a, who) then InView(w) else []) + InFlight(w')
  {
    var w := WorkerOf(s, who);
    if a.Delivered? && a.who == who {
      DeliveredIs(c, s, a);
      hide Shape, Apply, ApplyDelivery;
      OwnStep(c, s, who, a.step);
      OwnMove(c, s, who, a.step);
    } else {
      hide Shape, Apply;
      OtherStep(c, s, a, who);
    }
  }

  /** A delivery step from `Sending` is a try, and a write is not made from there. */
  lemma OwnMove(c: Config, s: State, who: Actor, step: DeliveryStep)
    requires DeliveryEnabled(c, s, WorkerOf(s, who), step)
    ensures WorkerOf(s, who).pc.Sending? <==> step.SendOk? || step.SendRefused?
    ensures WorkerOf(s, who).pc.Computed? <==> step.WriteCursor?
  {
  }

  ghost predicate PickBecomesTry(r: Run, who: Actor, k: nat)
    requires k < |r.actions| < |r.states|
  {
    InFlight(WorkerOf(r.states[k], who)) + PickAt(r, who, k) == TryAt(r, who, k) + InFlight(WorkerOf(r.states[k + 1], who))
  }

  lemma StepPickOrTry(c: Config, r: Run, who: Actor, k: nat)
    requires c.bufferSize > 0 && IsRun(c, r) && k < |r.actions|
    ensures PickBecomesTry(r, who, k)
  {
    RunKeepsShape(c, r, k);
    assert Steps(c, r.states[k], r.actions[k], r.states[k + 1]);
    hide Shape, Apply, Enabled, InView, InFlight;
    PickOrTry(c, r.states[k], r.actions[k], who);
  }

  lemma {:induction false} PicksBecomeTries(r: Run, who: Actor, i: nat, j: nat)
    requires i <= j <= |r.actions| < |r.states| && !WorkerOf(r.states[i], who).pc.Sending?
    requires forall k :: i <= k < j ==> PickBecomesTry(r, who, k)
    ensures PicksOf(r, who, i, j) == TriesOf(r, who, i, j) + InFlight(WorkerOf(r.states[j], who))
    decreases j
  {
    if i < j {
      PicksBecomeTries(r, who, i, j - 1);
      assert PickBecomesTry(r, who, j - 1);
      hide PickAt, TryAt, InFlight;
      Regroup(PicksOf(r, who, i, j - 1), TriesOf(r, who, i, j - 1), InFlight(WorkerOf(r.states[j - 1], who)),
              PickAt(r, who, j - 1), TryAt(r, who, j - 1), InFlight(WorkerOf(r.states[j], who)));
    }
  }

  /** What `who` picked from `i` to `j` is what it tried, and what it is about to try. */
  lemma PicksAreTries(c: Config, r: Run, who: Actor, i: nat, j: nat)
    requires c.bufferSize > 0 && IsRun(c, r) && i <= j < |r.states| && !WorkerOf(r.states[i], who).pc.Sending?
    ensures PicksOf(r, who, i, j) == TriesOf(r, who, i, j) + InFlight(WorkerOf(r.states[j], who))
  {
    forall k | i <= k < j ensures PickBecomesTry(r, who, k) { StepPickOrTry(c, r, who, k); }
    PicksBecomeTries(r, who, i, j);
  }

  lemma Regroup(picks: seq<nat>, tries: seq<nat>, before: seq<nat>, picked: seq<nat>, tried: seq<nat>, after: seq<nat>)
    requires picks == tries + before && before + picked == tried + after
    ensures picks + picked == (tries + tried) + after
  {
    assert (tries + before) + picked == tries + (before + picked);
    assert tries + (tried + after) == (tries + tried) + after;
  }

  /** Only `who` writes the cursor. */
  ghost predicate PicksAlone(r: Run, who: Actor, i: nat, j: nat) {
    forall k :: i <= k < j && k < |r.actions| ==> !Writes(r.actions[k], Other(who))
  }

  lemma {:induction false} AloneIsAll(r: Run, who: Actor, i: nat, j: nat)
    requires i <= j <= |r.actions| <= |r.states| && PicksAlone(r, who, i, j)
    ensures Picks(r, i, j) == PicksOf(r, who, i, j)
    decreases j
  {
    if i < j {
      AloneIsAll(r, who, i, j - 1);
      assert PickAt(r, Other(who), j - 1) == [];
      hide PickAt;
    }
  }

  lemma AloneIsApart(r: Run, who: Actor, i: nat, j: nat)
    requires i <= j <= |r.actions| < |r.states| && PicksAlone(r, who, i, j) && !MidPick(WorkerOf(r.states[i], who))
    ensures PicksApart(r, i, j)
  {
    forall l | i <= l <= j ensures !WritesLater(r, Other(who), l, j) { }
    assert forall other :: other == who || Other(other) == who;
  }

  // ------------------------------------------------------------ main results

  lemma PrefixGoesRound(subscribers: seq<nat>, start: nat, tries: seq<nat>, more: seq<nat>)
    requires subscribers != [] && GoRound(subscribers, start, tries + more)
    ensures GoRound(subscribers, start, tries)
  {
    forall x | 0 <= x < |tries| ensures tries[x] == subscribers[(start + x) % |subscribers|] {
      assert (tries + more)[x] == tries[x];
    }
  }

  /** Fairness of attempts.  Over any stretch of any run with the same subscribers,
      in which one goroutine picks alone, its t-th attempt goes to the subscriber
      t places on from the cursor, and each subscriber gets its fair share of the
      attempts, however long the stretch and whatever everybody else does. */
  lemma AttemptsGoRound(c: Config, r: Run, who: Actor, i: nat, j: nat)
    requires Steady(c, r, i, j) && PicksAlone(r, who, i, j) && !Picking(WorkerOf(r.states[i], who))
    ensures GoRound(r.states[i].subscribers, r.states[i].cursor, TriesOf(r, who, i, j))
    ensures FairShares(r.states[i].subscribers, multiset(TriesOf(r, who, i, j)))
  {
    var subs, start, tries := r.states[i].subscribers, r.states[i].cursor, TriesOf(r, who, i, j);
    AloneIsApart(r, who, i, j);
    AloneIsAll(r, who, i, j);
    PicksAreTries(c, r, who, i, j);
    PicksGoRound(c, r, i, j);
    RunKeepsShape(c, r, i);
    hide GoRound, FairShares, Picks, PicksOf, TriesOf, PicksApart;
    PrefixGoesRound(subs, start, tries, InFlight(WorkerOf(r.states[j], who)));
    RoundIsFair(subs, start, tries);
  }

  /** `who` is never refused. */
  ghost predicate NeverRefused(r: Run, who: Actor, i: nat, j: nat) {
    forall k :: i <= k < j && k < |r.actions| ==> r.actions[k] != Delivered(who, SendRefused)
  }

  lemma {:induction false} TriesAreSends(r: Run, who: Actor, i: nat, j: nat)
    requires i <= j <= |r.actions| <= |r.states| && NeverRefused(r, who, i, j)
    ensures SendsOf(r, who, i, j) == TriesOf(r, who, i, j)
    decreases j
  {
    if i < j {
      TriesAreSends(r, who, i, j - 1);
      assert r.actions[j - 1] != Delivered(who, SendRefused);
    }
  }

  /** Fairness of sends: if in addition nobody refuses, the t-th send of the stretch
      goes to the subscriber t places on, and after any k of them each of the n
      subscribers has been sent k / n messages, rounded down or up. */
  lemma SendsGoRound(c: Config, r: Run, who: Actor, i: nat, j: nat)
    requires Steady(c, r, i, j) && PicksAlone(r, who, i, j) && !Picking(WorkerOf(r.states[i], who))
    requires NeverRefused(r, who, i, j)
    ensures GoRound(r.states[i].subscribers, r.states[i].cursor, SendsOf(r, who, i, j))
    ensures FairShares(r.states[i].subscribers, multiset(SendsOf(r, who, i, j)))
  {
    TriesAreSends(r, who, i, j);
    AttemptsGoRound(c, r, who, i, j);
  }

  /** `all` is `a` and `b` together, in some order. */
  ghost predicate Merges(all: seq<nat>, a: seq<nat>, b: seq<nat>) {
    multiset(all) == multiset(a) + multiset(b)
  }

  lemma MergesOn(all: seq<nat>, a: seq<nat>, b: seq<nat>, a': seq<nat>, b': seq<nat>)
    requires Merges(all, a, b)
    ensures Merges(all + (a' + b'), a + a', b + b')
  {
    assert multiset(all + (a' + b')) == multiset(all) + multiset(a' + b');
  }

  lemma {:induction false} PicksOfBoth(r: Run, i: nat, j: nat)
    requires i <= j <= |r.actions| < |r.states|
    ensures Merges(Picks(r, i, j), PicksOf(r, Distributor, i, j), PicksOf(r, Redeliverer, i, j))
    decreases j
  {
    if i < j {
      var k := j - 1;
      PicksOfBoth(r, i, k);
      hide *;
      PicksSnoc(r, i, k);
      PicksOfSnoc(r, Distributor, i, k);
      PicksOfSnoc(r, Redeliverer, i, k);
      MergesOn(Picks(r, i, k), PicksOf(r, Distributor, i, k), PicksOf(r, Redeliverer, i, k),
               PickAt(r, Distributor, k), PickAt(r, Redeliverer, k));
    }
  }

  /** Both goroutines together: if their picks do not overlap, then from one moment
      at which nobody is sending to another each subscriber gets its fair share of
      all the attempts made. */
  lemma BothShareFairly(c: Config, r: Run, i: nat, j: nat)
    requires Steady(c, r, i, j) && PicksApart(r, i, j)
    requires forall who :: !WorkerOf(r.states[i], who).pc.Sending? && !WorkerOf(r.states[j], who).pc.Sending?
    ensures FairShares(r.states[i].subscribers,
                       multiset(TriesOf(r, Distributor, i, j)) + multiset(TriesOf(r, Redeliverer, i, j)))
  {
    PicksGoRound(c, r, i, j);
    PicksOfBoth(r, i, j);
    PicksAreTries(c, r, Distributor, i, j);
    PicksAreTries(c, r, Redeliverer, i, j);
    assert multiset(Picks(r, i, j)) == multiset(PicksOf(r, Distributor, i, j)) + multiset(PicksOf(r, Redeliverer, i, j));
    assert InFlight(WorkerOf(r.states[j], Distributor)) == [] && InFlight(WorkerOf(r.states[j], Redeliverer)) == [];
    hide *;
    assert PicksOf(r, Distributor, i, j) == TriesOf(r, Distributor, i, j);
    assert PicksOf(r, Redeliverer, i, j) == TriesOf(r, Redeliverer, i, j);
  }

  // ----------------------------------------------------------------- a race

  lemma TakeLook(c: Config, s: State, mid: State, who: Actor, step: DeliveryStep, pc: Pc) returns (s': State)
    requires Reaches(c, s, mid) && Good(c, mid) && DeliveryEnabled(c, mid, WorkerOf(mid, who), step)
    requires step.ReadCursor? || (step.Lookup? && mid.cursor < |mid.subscribers|)
    requires NextPc(mid, WorkerOf(mid, who).pc, step) == pc
    ensures s' == SetPc(mid, who, pc) && Good(c, s') && Reaches(c, s, s')
  {
    hide Good, Reaches, NextPc;
    s' := Take(c, mid, Delivered(who, step));
    ReachesOn(c, s, mid, s');
  }

  lemma TakeWrite(c: Config, s: State, mid: State, who: Actor) returns (s': State)
    requires Reaches(c, s, mid) && Good(c, mid) && WorkerOf(mid, who).pc.Computed?
    ensures var pc := WorkerOf(mid, who).pc;
            s' == SetPc(mid.(cursor := pc.next), who, Sending(pc.attempts, pc.sub)) && Good(c, s') && Reaches(c, s, s')
  {
    hide Good, Reaches;
    s' := Take(c, mid, Delivered(who, WriteCursor));
    ReachesOn(c, s, mid, s');
  }

  /** `who` looks the subscriber under the cursor up and reads the cursor again. */
  lemma LookAndRead(c: Config, s: State, mid: State, who: Actor) returns (s': State)
    requires Reaches(c, s, mid) && Good(c, mid) && WorkerOf(mid, who).pc.Ready?
    ensures Good(c, s') && Reaches(c, s, s') && mid.cursor < |mid.subscribers|
    ensures s' == SetPc(mid, who, Computed(WorkerOf(mid, who).pc.attempts, |mid.subscribers|, mid.subscribers[mid.cursor],
                                           (mid.cursor + 1) % |mid.subscribers|))
  {
    assert Shape(c, mid);
    var n, attempts := |mid.subscribers|, WorkerOf(mid, who).pc.attempts;
    assert mid.cursor < n && WorkerOf(mid, who).pc.n == n;
    var sub := mid.subscribers[mid.cursor];
    hide Good, Reaches, Shape;
    s' := TakeLook(c, s, mid, who, Lookup, Looked(attempts, n, sub));
    s' := TakeLook(c, s, s', who, ReadCursor, Computed(attempts, n, sub, (mid.cursor + 1) % n));
  }

  /** The race: when both goroutines are about to look a subscriber up, they can end
      up with the same one, while the cursor moves on by one place only. */
  lemma RacingPicksCollide(c: Config, s: State) returns (s': State)
    requires Good(c, s) && s.dist.pc.Ready? && s.redel.pc.Ready?
    ensures Reaches(c, s, s') && s.cursor < |s.subscribers|
    ensures s'.dist.pc.Sending? && s'.redel.pc.Sending?
    ensures s'.dist.pc.sub == s'.redel.pc.sub == s.subscribers[s.cursor]
    ensures s'.cursor == (s.cursor + 1) % |s.subscribers|
  {
    hide Good, Reaches;
    ReachesItself(c, s);
    s' := LookAndRead(c, s, s, Distributor);
    s' := LookAndRead(c, s, s', Redeliverer);
    s' := TakeWrite(c, s, s', Distributor);
    s' := TakeWrite(c, s, s', Redeliverer);
  }
}
