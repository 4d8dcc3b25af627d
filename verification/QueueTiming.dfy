/** How old a pending entry can get: the redelivery sweep against the clock. */
module QueueTiming {
  import opened Domain
  import opened QueueTypes
  import opened QueueProtocol
  import opened QueueLedger

  /** Pending entries were delivered in the past, and no more than `ackTimeout`
      before the last sweep. */
  ghost predicate Timed(c: Config, s: State) {
    && s.hist.lastSweep <= s.now
    && (forall id :: id in s.pending ==>
          s.hist.lastSweep - c.ackTimeout <= s.pending[id].deliveredAt <= s.now)
  }

  /** Every sweep comes at most `pendingTtl - ackTimeout` after the one before it
      (after the creation of the queue, for the first). */
  ghost predicate SweptInTime(c: Config, r: Run)
    requires IsRun(c, r)
  {
    forall i :: 0 <= i < |r.actions| && r.actions[i].Looped? && r.actions[i].loop.Sweep? ==>
      r.states[i].now - r.states[i].hist.lastSweep <= c.pendingTtl - c.ackTimeout
  }

  lemma StepKeepsTimed(c: Config, s: State, a: Action)
    requires Enabled(c, s, a) && Timed(c, s) && 0 <= c.ackTimeout
    ensures Timed(c, Apply(c, s, a))
  {
    match a
    case Called(call) => CallKeepsTimed(c, s, call);
    case Looped(step) => LoopKeepsTimed(c, s, step);
    case Delivered(who, step) => DeliveryKeepsTimed(c, s, who, step);
  }

  lemma CallKeepsTimed(c: Config, s: State, call: Call)
    requires CallEnabled(s, call) && Timed(c, s)
    ensures Timed(c, ApplyCall(c, s, call))
  {
  }

  lemma SweepKeepsTimed(c: Config, s: State, timeouts: seq<string>, expiries: seq<string>)
    requires LoopEnabled(c, s, Sweep(timeouts, expiries)) && Timed(c, s)
    ensures Timed(c, ApplySweep(c, s, timeouts, expiries))
  {
    hide MessagesOf, Lists;
  }

  lemma LoopKeepsTimed(c: Config, s: State, step: LoopStep)
    requires LoopEnabled(c, s, step) && Timed(c, s)
    ensures Timed(c, ApplyLoop(c, s, step))
  {
    hide LateIds, ExpiredIds, MessagesOf, Lists;
    match step
    case Sweep(timeouts, expiries) => SweepKeepsTimed(c, s, timeouts, expiries);
    case RequeueAll => BufferAllOnly(c, s.(redel := Worker([], Idle)), s.redel.todo);
    case _ =>
  }

  lemma TrackKeepsTimed(c: Config, s: State, m: Message, consumerId: string)
    requires Timed(c, s) && 0 <= c.ackTimeout
    ensures Timed(c, TrackSent(c, s, m, consumerId))
  {
  }

  lemma DeliveryKeepsTimed(c: Config, s: State, who: Actor, step: DeliveryStep)
    requires DeliveryEnabled(c, s, WorkerOf(s, who), step) && Timed(c, s) && 0 <= c.ackTimeout
    ensures Timed(c, ApplyDelivery(c, s, who, step))
  {
    hide NextPc, TrackSent;
    if step.Track? {
      var w := WorkerOf(s, who);
      TrackKeepsTimed(c, SetWorker(s, who, w.Advance()), w.todo[0], s.table[w.pc.sub].consumerId);
    }
  }

  lemma {:induction false} RunKeepsTimed(c: Config, r: Run, i: nat)
    requires IsRun(c, r) && i < |r.states| && 0 <= c.ackTimeout
    ensures Timed(c, r.states[i])
  {
    if i == 0 {
    } else {
      RunKeepsTimed(c, r, i - 1);
      assert Steps(c, r.states[i - 1], r.actions[i - 1], r.states[i]);
      StepKeepsTimed(c, r.states[i - 1], r.actions[i - 1]);
    }
  }

  /** What a sweep decides, in every run: it keeps, unchanged, exactly the entries
      not older than the Ack timeout (nor than the TTL); it takes out for redelivery
      one message for each entry older than the Ack timeout but not than the TTL;
      and it deletes one for each entry older than the TTL. */
  lemma SweepDecidesByAge(c: Config, r: Run, i: nat, m: Message)
    requires IsRun(c, r) && i < |r.actions| && r.actions[i].Looped? && r.actions[i].loop.Sweep?
    ensures var s, s' := r.states[i], r.states[i + 1];
            && (forall id :: id in s'.pending ==> id in s.pending && s'.pending[id] == s.pending[id])
            && (forall id :: id in s.pending ==>
                  (id in s'.pending <==> s.now - s.pending[id].deliveredAt <= c.ackTimeout
                                         && s.now - s.pending[id].deliveredAt <= c.pendingTtl))
    ensures var s, s' := r.states[i], r.states[i + 1];
            && s.hist.timedOut <= s'.hist.timedOut && s'.redel.todo == s'.hist.timedOut[|s.hist.timedOut|..]
            && multiset(s'.redel.todo)[m] ==
               |set id | id in s.pending && s.pending[id].message == m
                         && c.ackTimeout < s.now - s.pending[id].deliveredAt <= c.pendingTtl|
    ensures var s, s' := r.states[i], r.states[i + 1];
            && s.hist.expired <= s'.hist.expired
            && multiset(s'.hist.expired[|s.hist.expired|..])[m] ==
               |set id | id in s.pending && s.pending[id].message == m && s.now - s.pending[id].deliveredAt > c.pendingTtl|
  {
    var s, step := r.states[i], r.actions[i].loop;
    assert Steps(c, s, r.actions[i], r.states[i + 1]);
    SweepLeaves(c, s.pending, s.now);
    SweepRedelivers(c, s.pending, s.now, step.timeouts, m);
    SweepDeletes(c, s.pending, s.now, step.expiries, m);
    hide LateIds, ExpiredIds, MessagesOf, Lists, IsRun;
  }

  /** Right after a sweep no pending entry is older than `ackTimeout`. */
  lemma SweepLeavesOnlyYoung(c: Config, r: Run, i: nat, id: string)
    requires IsRun(c, r) && i < |r.actions| && 0 <= c.ackTimeout
    requires r.actions[i].Looped? && r.actions[i].loop.Sweep? && id in r.states[i + 1].pending
    ensures 0 <= r.states[i + 1].now - r.states[i + 1].pending[id].deliveredAt <= c.ackTimeout
  {
    RunKeepsTimed(c, r, i);
    assert Steps(c, r.states[i], r.actions[i], r.states[i + 1]);
  }

  lemma StepExpiresNothing(c: Config, s: State, a: Action)
    requires Enabled(c, s, a) && Timed(c, s) && 0 <= c.ackTimeout
    requires a.Looped? && a.loop.Sweep? ==> s.now - s.hist.lastSweep <= c.pendingTtl - c.ackTimeout
    ensures Apply(c, s, a).hist.expired == s.hist.expired
  {
    match a
    case Called(call) =>
    case Looped(step) =>
      if step.Sweep? {
        ListsHead(step.expiries, ExpiredIds(c, s.pending, s.now));
      } else if step.RequeueAll? {
        BufferAllOnly(c, s.(redel := Worker([], Idle)), s.redel.todo);
      }
    case Delivered(who, step) => DeliveryKeepsHistory(c, s, who, step);
  }

  /** Timed safety: if the sweeps come in time, the branch that deletes a
      message without redelivering it is never taken. */
  lemma {:induction false} NothingExpires(c: Config, r: Run, i: nat)
    requires IsRun(c, r) && SweptInTime(c, r) && i < |r.states| && 0 <= c.ackTimeout
    ensures r.states[i].hist.expired == []
  {
    if i == 0 {
    } else {
      NothingExpires(c, r, i - 1);
      RunKeepsTimed(c, r, i - 1);
      assert Steps(c, r.states[i - 1], r.actions[i - 1], r.states[i]);
      StepExpiresNothing(c, r.states[i - 1], r.actions[i - 1]);
    }
  }
}
