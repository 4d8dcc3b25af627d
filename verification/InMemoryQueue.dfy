/** The work queue of pkg/mq/inmemory.go as one caller at a time sees it.  Each
    method takes the time it reads from the clock as a parameter. */
module InMemoryQueue {
  import opened DivMod
  import opened Domain
  import opened QueueTypes
  import opened RoundRobin

  datatype QueueError =
    | NilMessage | MissingId | NilPayload | QueueClosed | Cancelled | QueueFull
    | MissingConsumerId | WrongConsumer

  class SubscriberInfo {
    const consumerId: string
    var channel: seq<Message>
    var closed: bool
    var shut: bool
    var ctxDone: bool
    var sendWins: bool

    constructor (consumerId: string)
      ensures View() == Subscriber(consumerId, [], false, false, false, false)
    {
      this.consumerId := consumerId;
      channel, closed, shut, ctxDone, sendWins := [], false, false, false, false;
    }

    function View(): Subscriber
      reads this
    {
      Subscriber(consumerId, channel, closed, shut, ctxDone, sendWins)
    }
  }

  function Views(subs: seq<SubscriberInfo>): seq<Subscriber>
    reads subs
  {
    if subs == [] then [] else [subs[0].View()] + Views(subs[1..])
  }

  lemma {:induction false} ViewsAt(subs: seq<SubscriberInfo>)
    ensures |Views(subs)| == |subs|
    ensures forall i :: 0 <= i < |subs| ==> Views(subs)[i] == subs[i].View()
  {
    if subs == [] {
    } else {
      ViewsAt(subs[1..]);
    }
  }

  class InMemoryMessageQueue {
    const config: Config
    var messages: seq<Message>
    var subscribers: seq<SubscriberInfo>
    var pendingMessages: map<string, Pending>
    var closed: bool
    var currentSubscriberIndex: nat
    var undeliveredQueue: seq<Message>

    ghost predicate Valid()
      reads this
    {
      && config.bufferSize > 0
      && |messages| <= config.bufferSize
      && |undeliveredQueue| <= config.MaxUndelivered()
      && |pendingMessages| <= config.MaxPending()
      && (forall i, j :: 0 <= i < j < |subscribers| ==> subscribers[i] != subscribers[j])
    }

    function View(): Ring
      reads this, subscribers
    {
      Ring(Views(subscribers), currentSubscriberIndex, undeliveredQueue, pendingMessages)
    }

    constructor (bufferSize: int)
      ensures Valid() && config == NewConfig(bufferSize)
      ensures config.bufferSize == if bufferSize <= 0 then 100 else bufferSize
      ensures config.ackTimeout == 30 * 1_000_000_000 && config.pendingTtl == 5 * 60 * 1_000_000_000
      ensures messages == [] && subscribers == [] && !closed && View() == Ring([], 0, [], map[])
    {
      config := NewConfig(bufferSize);
      messages, subscribers, pendingMessages, closed := [], [], map[], false;
      currentSubscriberIndex, undeliveredQueue := 0, [];
    }

    method Publish(msg: Option<Message>, cancelled: bool) returns (err: Option<QueueError>)
      requires Valid()
      modifies this`messages
      ensures Valid()
      ensures err == if msg.None? then Some(NilMessage)
                     else if msg.value.id == "" then Some(MissingId)
                     else if msg.value.payload.None? then Some(NilPayload)
                     else if closed then Some(QueueClosed)
                     else if cancelled then Some(Cancelled)
                     else if |old(messages)| >= config.bufferSize then Some(QueueFull)
                     else None
      ensures messages == if err.None? then old(messages) + [msg.value] else old(messages)
    {
      if msg.None? { return Some(NilMessage); }
      if msg.value.id == "" { return Some(MissingId); }
      if msg.value.payload.None? { return Some(NilPayload); }
      if closed { return Some(QueueClosed); }
      if cancelled { return Some(Cancelled); }
      if |messages| < config.bufferSize {
        messages := messages + [msg.value];
        return None;
      }
      err := Some(QueueFull);
    }

    method Subscribe(consumerId: string) returns (r: Result<SubscriberInfo, QueueError>)
      requires Valid()
      modifies this`subscribers
      ensures Valid()
      ensures consumerId == "" ==> r == Err(MissingConsumerId)
      ensures consumerId != "" && closed ==> r == Err(QueueClosed)
      ensures consumerId != "" && !closed ==>
                r.Ok? && fresh(r.value) && r.value.View() == Subscriber(consumerId, [], false, false, false, false)
      ensures subscribers == if r.Ok? then old(subscribers) + [r.value] else old(subscribers)
    {
      if consumerId == "" { return Err(MissingConsumerId); }
      if closed { return Err(QueueClosed); }
      var subInfo := new SubscriberInfo(consumerId);
      subscribers := subscribers + [subInfo];
      r := Ok(subInfo);
    }

    /** What happens once a subscriber's context is done. */
    method Cleanup(subInfo: SubscriberInfo)
      requires Valid()
      modifies this`subscribers, this`currentSubscriberIndex, subInfo
      ensures Valid()
      ensures subInfo !in subscribers && subInfo.View() == old(subInfo.View()).(closed := true, shut := true)
      ensures forall s :: s in old(subscribers) && s != subInfo ==> s in subscribers
      ensures subInfo !in old(subscribers) ==> subscribers == old(subscribers)
      ensures subInfo in old(subscribers) ==>
                exists i :: 0 <= i < |old(subscribers)| && old(subscribers)[i] == subInfo
                            && subscribers == old(subscribers)[..i] + old(subscribers)[i + 1..]
      ensures currentSubscriberIndex ==
              if subInfo in old(subscribers) && old(currentSubscriberIndex) >= |subscribers| then 0
              else old(currentSubscriberIndex)
    {
      var i := 0;
      while i < |subscribers|
        invariant 0 <= i <= |subscribers|
        invariant Valid() && subscribers == old(subscribers) && currentSubscriberIndex == old(currentSubscriberIndex)
        invariant subInfo !in subscribers[..i]
        invariant subInfo.View() == old(subInfo.View())
      {
        if subscribers[i] == subInfo {
          subscribers := subscribers[..i] + subscribers[i + 1..];
          if currentSubscriberIndex >= |subscribers| {
            currentSubscriberIndex := 0;
          }
          break;
        }
        i := i + 1;
      }
      subInfo.closed := true;
      subInfo.shut := true;
    }

    /** Sends if the subscriber accepts; a recovered panic is a refusal. */
    method SafeSend(subInfo: SubscriberInfo, msg: Message) returns (sent: bool)
      modifies subInfo`channel
      ensures sent == Accepts(config, old(subInfo.View()))
      ensures sent <==> !subInfo.closed && !subInfo.shut && |old(subInfo.channel)| < config.bufferSize
                        && (subInfo.ctxDone ==> subInfo.sendWins)
      ensures subInfo.View() == if sent then Push(old(subInfo.View()), msg) else old(subInfo.View())
      ensures subInfo.channel == if sent then old(subInfo.channel) + [msg] else old(subInfo.channel)
    {
      if subInfo.closed { return false; }
      if subInfo.shut { return false; }
      if |subInfo.channel| < config.bufferSize && (!subInfo.ctxDone || subInfo.sendWins) {
        subInfo.channel := subInfo.channel + [msg];
        return true;
      }
      sent := false;
    }

    method BufferMessage(msg: Message)
      requires Valid()
      modifies this`undeliveredQueue
      ensures Valid()
      ensures View() == Buffer(config, old(View()), msg)
      ensures undeliveredQueue ==
              if |old(undeliveredQueue)| < config.bufferSize then old(undeliveredQueue) + [msg] else old(undeliveredQueue)
    {
      if |undeliveredQueue| < config.MaxUndelivered() {
        undeliveredQueue := undeliveredQueue + [msg];
      }
    }

    /** Under the read lock: bring the cursor into range, take the subscriber
        under it and move on.  Then try to send. */
    method PickAndSend(msg: Message) returns (sent: bool, consumerId: string)
      requires Valid() && subscribers != []
      modifies this`currentSubscriberIndex, subscribers
      ensures Valid()
      ensures var ring := old(View());
              && |ring.subs| == |subscribers|
              && Start(ring) == (if old(currentSubscriberIndex) < |subscribers| then old(currentSubscriberIndex) else 0)
              && sent == Accepts(config, ring.subs[Start(ring)])
              && consumerId == ring.subs[Start(ring)].consumerId
              && View() == ring.(cursor := (Start(ring) + 1) % |ring.subs|,
                                 subs := if sent then ring.subs[Start(ring) := Push(ring.subs[Start(ring)], msg)]
                                         else ring.subs)
    {
      ViewsAt(subscribers);
      ghost var views := Views(subscribers);
      var numSubs := |subscribers|;
      if currentSubscriberIndex >= numSubs {
        currentSubscriberIndex := 0;
      }
      ghost var i := currentSubscriberIndex;
      var subInfo := subscribers[currentSubscriberIndex];
      currentSubscriberIndex := (currentSubscriberIndex + 1) % numSubs;

      sent := SafeSend(subInfo, msg);
      consumerId := subInfo.consumerId;
      ViewsUnchanged(subscribers, if sent then views[i := Push(views[i], msg)] else views);
    }

    /** One attempt: a message that has been sent is tracked as pending. */
    method Attempt(msg: Message, now: int) returns (sent: bool)
      requires Valid() && subscribers != []
      modifies this`currentSubscriberIndex, this`pendingMessages, subscribers
      ensures Valid()
      ensures var ring := old(View());
              var next := ring.(cursor := (Start(ring) + 1) % |ring.subs|);
              && |ring.subs| == |subscribers|
              && sent == Accepts(config, ring.subs[Start(ring)])
              && View() == if sent then SendTo(config, next, Start(ring), msg, now) else next
    {
      hide Views, Accepts;
      var consumerId;
      sent, consumerId := PickAndSend(msg);
      if sent {
        TrackPending(msg, consumerId, now);
      }
    }

    method TrackPending(msg: Message, consumerId: string, now: int)
      requires Valid()
      modifies this`pendingMessages
      ensures Valid()
      ensures View() == old(View()).(pending :=
                if |old(pendingMessages)| < 10 * config.bufferSize
                then old(pendingMessages)[msg.id := Pending(msg, consumerId, now)] else old(pendingMessages))
    {
      if |pendingMessages| < config.MaxPending() {
        pendingMessages := pendingMessages[msg.id := Pending(msg, consumerId, now)];
      }
    }

    /** Round-robin delivery with at most 100 attempts, then the backlog. */
    method DeliverMessage(msg: Message, now: int) returns (delivered: bool)
      requires Valid()
      modifies this`currentSubscriberIndex, this`undeliveredQueue, this`pendingMessages, subscribers
      ensures Valid()
      ensures delivered == Delivers(config, old(View()))
      ensures View() == Deliver(config, old(View()), msg, now)
    {
      hide Views, Deliver, Delivers, Refusals, Refused, Accepts, SendTo;
      ghost var ring := View();
      ViewsAt(subscribers);
      NoAttemptYet(config, ring);
      var totalAttempts := 0;
      while true
        invariant Valid() && 0 <= totalAttempts < MAX_RETRIES && |ring.subs| == |subscribers|
        invariant View() == ring.(cursor := currentSubscriberIndex)
        invariant Refused(config, ring, totalAttempts, currentSubscriberIndex)
        decreases MAX_RETRIES - totalAttempts
      {
        if |subscribers| == 0 {
          NobodyToAsk(config, ring, totalAttempts, currentSubscriberIndex, msg, now);
          BufferMessage(msg);
          return false;
        }
        OneMoreAttempt(config, ring, totalAttempts, currentSubscriberIndex, msg, now);
        var sent := Attempt(msg, now);
        if sent {
          return true;
        }
        totalAttempts := totalAttempts + 1;
        if totalAttempts >= MAX_RETRIES {
          EverybodyRefused(config, ring, currentSubscriberIndex, msg, now);
          BufferMessage(msg);
          return false;
        }
      }
    }

    /** The distributor's handling of one received message. */
    method Dispatch(msg: Message, now: int)
      requires Valid()
      modifies this`currentSubscriberIndex, this`undeliveredQueue, this`pendingMessages, subscribers
      ensures Valid()
      ensures View() == Distribute(config, old(View()), msg, now)
      ensures |subscribers| <= 100 ==> KeepsOrJams(config, old(View()), multiset{msg}, View())
    {
      hide Views, Deliver, KeepsOrJams;
      if |subscribers| <= 100 { ViewsAt(subscribers); RoundKeepsOrJams(config, View(), msg, now); }
      ViewsAt(subscribers);
      if |subscribers| == 0 {
        BufferMessage(msg);
        return;
      }
      ghost var flushed := View().(backlog := []);
      DeliverAllSnoc(config, flushed, undeliveredQueue, msg, now);
      assert DeliverAll(config, flushed, [], now) == flushed;
      hide DeliverAll;
      if |undeliveredQueue| > 0 {
        var backlog := undeliveredQueue;
        undeliveredQueue := [];
        DeliverEach(backlog, now);
      }
      var _ := DeliverMessage(msg, now);
    }

    method DeliverEach(batch: seq<Message>, now: int)
      requires Valid()
      modifies this`currentSubscriberIndex, this`undeliveredQueue, this`pendingMessages, subscribers
      ensures Valid()
      ensures View() == DeliverAll(config, old(View()), batch, now)
    {
      var i := 0;
      while i < |batch|
        invariant 0 <= i <= |batch| && Valid()
        invariant View() == DeliverAll(config, old(View()), batch[..i], now)
      {
        assert batch[..i + 1] == batch[..i] + [batch[i]];
        DeliverAllSnoc(config, old(View()), batch[..i], batch[i], now);
        var _ := DeliverMessage(batch[i], now);
        i := i + 1;
      }
      assert batch[..i] == batch;
    }

    /** The distributor loop on what the input channel holds. */
    method DistributeAvailable(now: int)
      requires Valid()
      modifies this`messages, this`currentSubscriberIndex, this`undeliveredQueue, this`pendingMessages, subscribers
      ensures Valid() && messages == []
      ensures View() == DistributeAll(config, old(View()), old(messages), now)
      ensures old(messages) == [] ==> View() == old(View())
      ensures subscribers == [] ==>
                var all := old(undeliveredQueue) + old(messages);
                undeliveredQueue == if |all| <= config.bufferSize then all else all[..config.bufferSize]
      ensures |subscribers| <= 100 ==> KeepsOrJams(config, old(View()), multiset(old(messages)), View())
    {
      ViewsAt(subscribers);
      WhatRoundsDo(config, View(), messages, now);
      hide Views, DistributeAll, KeepsOrJams;
      RunRounds(now);
    }

    /** One round per message, as long as there are any. */
    method RunRounds(now: int)
      requires Valid()
      modifies this`messages, this`currentSubscriberIndex, this`undeliveredQueue, this`pendingMessages, subscribers
      ensures Valid() && messages == []
      ensures View() == DistributeAll(config, old(View()), old(messages), now)
    {
      hide Views, Distribute, KeepsOrJams;
      ghost var taken: seq<Message> := [];
      while |messages| > 0
        invariant Valid()
        invariant old(messages) == taken + messages
        invariant View() == DistributeAll(config, old(View()), taken, now)
        decreases |messages|
      {
        var msg := messages[0];
        messages := messages[1..];
        DistributeAllSnoc(config, old(View()), taken, msg, now);
        taken := taken + [msg];
        Dispatch(msg, now);
      }
      assert taken == old(messages);
    }

    /** One tick of the redelivery loop, under the lock: what has expired is
        deleted, what has timed out is deleted and collected. */
    method CollectTimedOut(now: int) returns (redeliver: seq<Message>, ghost ids: seq<string>)
      requires Valid()
      modifies this`pendingMessages
      ensures Valid()
      ensures pendingMessages == old(pendingMessages) - LateIds(config, old(pendingMessages), now)
                                                      - ExpiredIds(config, old(pendingMessages), now)
      ensures Lists(ids, LateIds(config, old(pendingMessages), now))
      ensures redeliver == MessagesOf(old(pendingMessages), ids)
      ensures var before := old(pendingMessages);
              && (forall id :: id in pendingMessages ==> id in before && pendingMessages[id] == before[id])
              && (forall id :: id in before ==>
                    (id in pendingMessages <==> now - before[id].deliveredAt <= config.ackTimeout
                                                && now - before[id].deliveredAt <= config.pendingTtl))
      ensures var before := old(pendingMessages);
              forall m :: multiset(redeliver)[m] ==
                |set id | id in before && before[id].message == m
                          && config.ackTimeout < now - before[id].deliveredAt <= config.pendingTtl|
    {
      hide Swept, Collected, MessagesOf, Lists;
      ghost var before := pendingMessages;
      var todo := pendingMessages.Keys;
      redeliver, ids := [], [];
      NothingSweptYet(config, before, now);
      while todo != {}
        invariant todo <= before.Keys && Valid()
        invariant Swept(config, before, now, todo, pendingMessages)
        invariant Collected(config, before, now, todo, ids)
        invariant (forall x :: x in ids ==> x in before) && redeliver == MessagesOf(before, ids)
        decreases todo
      {
        var id :| id in todo;
        SweptOneMore(config, before, now, todo, pendingMessages, id);
        CollectedOneMore(config, before, now, todo, ids, id);
        todo := todo - {id};
        var pending := pendingMessages[id];
        var elapsed := now - pending.deliveredAt;
        SmallerWithout(pendingMessages, id);
        if config.Expires(elapsed) {
          pendingMessages := pendingMessages - {id};
        } else if config.TimesOut(elapsed) {
          pendingMessages := pendingMessages - {id};
          MessagesOfSnoc(before, ids, id);
          redeliver := redeliver + [pending.message];
          ids := ids + [id];
        }
      }
      SweptAll(config, before, now, pendingMessages);
      CollectedAll(config, before, now, {}, ids);
      SweepLeaves(config, before, now);
      forall m { SweepRedelivers(config, before, now, ids, m); }
    }

    /** The whole tick: timed-out messages are delivered again, or join the
        backlog if there was no subscriber. */
    method Redeliver(now: int) returns (ghost late: seq<Message>)
      requires Valid()
      modifies this`currentSubscriberIndex, this`undeliveredQueue, this`pendingMessages, subscribers
      ensures Valid()
      ensures exists ids :: Lists(ids, LateIds(config, old(pendingMessages), now)) && late == MessagesOf(old(pendingMessages), ids)
      ensures var before := old(pendingMessages);
              forall m :: multiset(late)[m] ==
                |set id | id in before && before[id].message == m
                          && config.ackTimeout < now - before[id].deliveredAt <= config.pendingTtl|
      ensures var kept := old(View()).(pending := old(pendingMessages) - LateIds(config, old(pendingMessages), now)
                                                                       - ExpiredIds(config, old(pendingMessages), now));
              && View() == (if kept.subs != [] then DeliverAll(config, kept, late, now) else BufferEach(config, kept, late))
              && (|subscribers| <= 100 ==> KeepsOrJams(config, old(View()), multiset(late), View()))
      ensures subscribers == [] ==>
                var all := old(undeliveredQueue) + late;
                undeliveredQueue == if |all| <= config.bufferSize then all else all[..config.bufferSize]
    {
      ViewsAt(subscribers);
      hide Lists, MessagesOf, LateIds, ExpiredIds, KeepsOrJams, DeliverAll, BufferEach, Views;
      ghost var was := View();
      var redeliver, ids := CollectTimedOut(now);
      late := redeliver;
      ghost var kept := View();
      SweptRing(config, was, kept, late, now);
      DeliverLate(redeliver, now);
    }

    /** Delivers a batch, or buffers it if nobody is there. */
    method DeliverLate(redeliver: seq<Message>, now: int)
      requires Valid()
      modifies this`currentSubscriberIndex, this`undeliveredQueue, this`pendingMessages, subscribers
      ensures Valid()
      ensures var kept := old(View());
              View() == if kept.subs != [] then DeliverAll(config, kept, redeliver, now) else BufferEach(config, kept, redeliver)
    {
      ViewsAt(subscribers);
      SweptRing(config, View(), View(), redeliver, now);
      hide DeliverAll, BufferEach, KeepsOrJams, Views;
      var hasSubs := |subscribers| > 0;
      if |redeliver| > 0 {
        if hasSubs {
          DeliverEach(redeliver, now);
        } else {
          BufferBatch(redeliver);
        }
      }
    }

    method BufferBatch(batch: seq<Message>)
      requires Valid()
      modifies this`undeliveredQueue
      ensures Valid()
      ensures View() == BufferEach(config, old(View()), batch)
      ensures var all := old(undeliveredQueue) + batch;
              undeliveredQueue == if |all| <= config.bufferSize then all else all[..config.bufferSize]
    {
      BufferEachFills(config, View(), batch);
      var i := 0;
      while i < |batch|
        invariant 0 <= i <= |batch| && Valid()
        invariant View() == BufferEach(config, old(View()), batch[..i])
      {
        assert batch[..i + 1] == batch[..i] + [batch[i]];
        BufferEachSnoc(config, old(View()), batch[..i], batch[i]);
        BufferMessage(batch[i]);
        i := i + 1;
      }
      assert batch[..i] == batch;
    }

    method Ack(messageId: string, consumerId: string) returns (err: Option<QueueError>)
      requires Valid()
      modifies this`pendingMessages
      ensures Valid()
      ensures err == if messageId in old(pendingMessages) && old(pendingMessages)[messageId].consumerId != consumerId
                     then Some(WrongConsumer) else None
      ensures pendingMessages == if err.None? then old(pendingMessages) - {messageId} else old(pendingMessages)
    {
      if messageId !in pendingMessages { return None; }
      if pendingMessages[messageId].consumerId != consumerId { return Some(WrongConsumer); }
      pendingMessages := pendingMessages - {messageId};
      err := None;
    }

    /** Close, with the distributor's last round: what is still in the input
        channel is distributed, then every channel is shut and pending cleared. */
    method Close(now: int)
      requires Valid()
      modifies this, subscribers
      ensures Valid() && closed
      ensures old(closed) ==> messages == old(messages) && subscribers == old(subscribers) && View() == old(View())
      ensures !old(closed) ==> messages == [] && subscribers == [] && pendingMessages == map[]
      ensures !old(closed) ==>
                undeliveredQueue == DistributeAll(config, old(View()), old(messages), now).backlog
      ensures !old(closed) && old(messages) == [] ==> DistributeAll(config, old(View()), old(messages), now) == old(View())
      ensures !old(closed) && |old(subscribers)| <= 100 ==>
                KeepsOrJams(config, old(View()), multiset(old(messages)), DistributeAll(config, old(View()), old(messages), now))
      ensures !old(closed) ==>
                var after := DistributeAll(config, old(View()), old(messages), now).subs;
                |after| == |old(subscribers)|
                && forall j :: 0 <= j < |after| ==> old(subscribers)[j].View() == after[j].(shut := true)
    {
      ViewsAt(subscribers);
      hide DistributeAll, Views, KeepsOrJams;
      if closed { return; }
      ghost var ring := View();
      WhatRoundsDo(config, ring, messages, now);
      closed := true;
      assert View() == ring;
      DistributeAvailable(now);
      ghost var after := DistributeAll(config, ring, old(messages), now);
      ViewsAt(subscribers);
      assert forall j :: 0 <= j < |subscribers| ==> subscribers[j].View() == after.subs[j];
      ShutChannels();
      assert forall j :: 0 <= j < |subscribers| ==> subscribers[j].View() == after.subs[j].(shut := true);
      subscribers := [];
      pendingMessages := map[];
    }

    /** Shuts the channel of every listed subscriber. */
    method ShutChannels()
      requires Valid()
      modifies subscribers
      ensures Valid()
      ensures forall j :: 0 <= j < |subscribers| ==> subscribers[j].View() == old(subscribers[j].View()).(shut := true)
    {
      var i := 0;
      while i < |subscribers|
        invariant 0 <= i <= |subscribers| && Valid()
        invariant forall j :: 0 <= j < i ==> subscribers[j].View() == old(subscribers[j].View()).(shut := true)
        invariant forall j :: i <= j < |subscribers| ==> subscribers[j].View() == old(subscribers[j].View())
        modifies subscribers
      {
        subscribers[i].shut := true;
        i := i + 1;
      }
    }
  }

  /** What a round of redelivery makes of the ring, written out. */
  lemma SweptRing(c: Config, was: Ring, kept: Ring, late: seq<Message>, now: int)
    requires kept == was.(pending := kept.pending) && |was.backlog| <= c.bufferSize
    ensures late == [] ==> DeliverAll(c, kept, late, now) == kept && BufferEach(c, kept, late) == kept
    ensures var all := was.backlog + late;
            BufferEach(c, kept, late).backlog == if |all| <= c.bufferSize then all else all[..c.bufferSize]
    ensures |was.subs| <= 100 ==>
              KeepsOrJams(c, was, multiset(late),
                          if kept.subs != [] then DeliverAll(c, kept, late, now) else BufferEach(c, kept, late))
  {
    BufferEachFills(c, kept, late);
    if kept.subs != [] {
      if |was.subs| <= 100 { SeriesKeepsOrJams(c, kept, late, now); }
    } else {
      FilledKeepsOrJams(c, kept, late, BufferEach(c, kept, late));
    }
  }

  lemma ViewsUnchanged(subs: seq<SubscriberInfo>, views: seq<Subscriber>)
    requires |views| == |subs|
    requires forall j :: 0 <= j < |subs| ==> subs[j].View() == views[j]
    ensures Views(subs) == views
  {
    ViewsAt(subs);
  }

  /** The sweep has looked at every entry of `before` but those in `todo`. */
  ghost predicate Swept(c: Config, before: map<string, Pending>, now: int, todo: set<string>, pending: map<string, Pending>) {
    && (forall id :: id in pending ==> id in before && pending[id] == before[id])
    && (forall id :: id in before ==> (id in pending <==> id in todo || Young(c, before[id], now)))
  }

  predicate Young(c: Config, p: Pending, now: int) {
    !c.Expires(now - p.deliveredAt) && !c.TimesOut(now - p.deliveredAt)
  }

  lemma SweptAll(c: Config, before: map<string, Pending>, now: int, pending: map<string, Pending>)
    requires Swept(c, before, now, {}, pending)
    ensures pending == before - LateIds(c, before, now) - ExpiredIds(c, before, now)
  {
    var rest := before - LateIds(c, before, now) - ExpiredIds(c, before, now);
    forall id ensures id in pending <==> id in rest { }
  }

  /** `ids` lists the timed-out entries seen so far. */
  ghost predicate Collected(c: Config, before: map<string, Pending>, now: int, todo: set<string>, ids: seq<string>) {
    && (forall i, j :: 0 <= i < j < |ids| ==> ids[i] != ids[j])
    && (forall id :: id in ids <==> id in before && id !in todo && c.TimesOut(now - before[id].deliveredAt))
  }

  lemma NothingSweptYet(c: Config, before: map<string, Pending>, now: int)
    ensures Swept(c, before, now, before.Keys, before)
    ensures Collected(c, before, now, before.Keys, []) && MessagesOf(before, []) == []
  {
  }

  lemma SweptOneMore(c: Config, before: map<string, Pending>, now: int, todo: set<string>, pending: map<string, Pending>, id: string)
    requires Swept(c, before, now, todo, pending) && id in todo && id in before
    ensures id in pending && pending[id] == before[id]
    ensures Swept(c, before, now, todo - {id}, if Young(c, before[id], now) then pending else pending - {id})
  {
  }

  lemma CollectedOneMore(c: Config, before: map<string, Pending>, now: int, todo: set<string>, ids: seq<string>, id: string)
    requires Collected(c, before, now, todo, ids) && id in todo && id in before
    ensures Collected(c, before, now, todo - {id},
                      if c.TimesOut(now - before[id].deliveredAt) then ids + [id] else ids)
  {
    assert forall x :: x in ids + [id] <==> x in ids || x == id;
  }

  lemma CollectedAll(c: Config, before: map<string, Pending>, now: int, todo: set<string>, ids: seq<string>)
    requires Collected(c, before, now, todo, ids)
    ensures forall x :: x in ids ==> x in before
    ensures todo == {} ==> Lists(ids, LateIds(c, before, now))
  {
  }

  lemma SmallerWithout(pending: map<string, Pending>, id: string)
    ensures |pending - {id}| <= |pending|
  {
    assert (pending - {id}).Keys == pending.Keys - {id};
    assert |pending - {id}| == |(pending - {id}).Keys|;
  }

  /** `attempts` attempts have been refused and the cursor stands where the next one goes. */
  ghost predicate Refused(c: Config, ring: Ring, attempts: nat, cursor: nat) {
    && (attempts == 0 ==> cursor == ring.cursor)
    && (attempts > 0 ==> ring.subs != [] && cursor == (Start(ring) + attempts) % |ring.subs|)
    && (ring.subs != [] ==>
          attempts <= MAX_RETRIES
          && Refusals(c, ring.subs, Start(ring), MAX_RETRIES)
             == attempts + Refusals(c, ring.subs, Start(ring) + attempts, MAX_RETRIES - attempts))
  }

  lemma NoAttemptYet(c: Config, ring: Ring)
    ensures Refused(c, ring, 0, ring.cursor)
  {
  }

  lemma NobodyToAsk(c: Config, ring: Ring, attempts: nat, cursor: nat, msg: Message, now: int)
    requires ring.subs == [] && Refused(c, ring, attempts, cursor)
    ensures cursor == ring.cursor && !Delivers(c, ring) && Deliver(c, ring, msg, now) == Buffer(c, ring, msg)
  {
  }

  lemma EverybodyRefused(c: Config, ring: Ring, cursor: nat, msg: Message, now: int)
    requires ring.subs != [] && Refused(c, ring, MAX_RETRIES, cursor)
    ensures !Delivers(c, ring)
    ensures Deliver(c, ring, msg, now) == Buffer(c, ring.(cursor := cursor), msg)
  {
  }

  /** The next attempt goes to the position that comes next in the search. */
  lemma AttemptPosition(c: Config, ring: Ring, attempts: nat, cursor: nat)
    requires ring.subs != [] && attempts < MAX_RETRIES && Refused(c, ring, attempts, cursor)
    ensures var i := Start(ring.(cursor := cursor));
            && i == (Start(ring) + attempts) % |ring.subs|
            && (i + 1) % |ring.subs| == (Start(ring) + attempts + 1) % |ring.subs|
  {
    hide Refusals;
    NextPosition(Start(ring), attempts, cursor, |ring.subs|);
  }

  lemma AcceptedNow(c: Config, ring: Ring, attempts: nat, msg: Message, now: int)
    requires ring.subs != [] && attempts < MAX_RETRIES && AcceptsAt(c, ring.subs, Start(ring) + attempts)
    requires Refusals(c, ring.subs, Start(ring), MAX_RETRIES)
             == attempts + Refusals(c, ring.subs, Start(ring) + attempts, MAX_RETRIES - attempts)
    ensures var n := |ring.subs|;
            && Delivers(c, ring)
            && Deliver(c, ring, msg, now)
               == SendTo(c, ring.(cursor := (Start(ring) + attempts + 1) % n), (Start(ring) + attempts) % n, msg, now)
  {
    hide Refusals, SendTo, AcceptsAt, Start;
    RefusalsStep(c, ring.subs, Start(ring) + attempts, MAX_RETRIES - attempts);
  }

  lemma RefusedOnceMore(c: Config, ring: Ring, attempts: nat)
    requires ring.subs != [] && attempts < MAX_RETRIES && !AcceptsAt(c, ring.subs, Start(ring) + attempts)
    requires Refusals(c, ring.subs, Start(ring), MAX_RETRIES)
             == attempts + Refusals(c, ring.subs, Start(ring) + attempts, MAX_RETRIES - attempts)
    ensures Refused(c, ring, attempts + 1, (Start(ring) + attempts + 1) % |ring.subs|)
  {
    hide Refusals, AcceptsAt, Start;
    RefusalsStep(c, ring.subs, Start(ring) + attempts, MAX_RETRIES - attempts);
  }

  lemma RefusalsStep(c: Config, subs: seq<Subscriber>, x: nat, limit: nat)
    requires subs != [] && limit > 0
    ensures Refusals(c, subs, x, limit) == if AcceptsAt(c, subs, x) then 0 else 1 + Refusals(c, subs, x + 1, limit - 1)
  {
  }

  /** The next attempt goes where `Deliver` says: a refusal is one more, an
      acceptance ends the delivery. */
  lemma OneMoreAttempt(c: Config, ring: Ring, attempts: nat, cursor: nat, msg: Message, now: int)
    requires ring.subs != [] && attempts < MAX_RETRIES && Refused(c, ring, attempts, cursor)
    ensures var i := Start(ring.(cursor := cursor));
            var next := (i + 1) % |ring.subs|;
            && (!Accepts(c, ring.subs[i]) ==> Refused(c, ring, attempts + 1, next))
            && (Accepts(c, ring.subs[i]) ==>
                  Delivers(c, ring) && Deliver(c, ring, msg, now) == SendTo(c, ring.(cursor := next), i, msg, now))
  {
    AttemptPosition(c, ring, attempts, cursor);
    hide Refusals, SendTo, Accepts, Deliver, Delivers;
    if AcceptsAt(c, ring.subs, Start(ring) + attempts) {
      AcceptedNow(c, ring, attempts, msg, now);
    } else {
      RefusedOnceMore(c, ring, attempts);
    }
  }

  lemma NextPosition(start: nat, attempts: nat, cursor: nat, n: nat)
    requires start < n && (if attempts == 0 then true else cursor == (start + attempts) % n)
    ensures start % n == start
    ensures attempts > 0 ==> cursor < n
    ensures ((start + attempts) % n + 1) % n == (start + attempts + 1) % n
  {
    DivModUnique(start, 0, start, n);
    ModAddOne(start + attempts, n);
  }

  lemma {:induction false} MessagesOfSnoc(pending: map<string, Pending>, ids: seq<string>, id: string)
    requires forall x :: x in ids ==> x in pending
    requires id in pending
    ensures MessagesOf(pending, ids + [id]) == MessagesOf(pending, ids) + [pending[id].message]
  {
    if ids == [] {
      assert ids + [id] == [id];
    } else {
      MessagesOfSnoc(pending, ids[1..], id);
      assert (ids + [id])[1..] == ids[1..] + [id];
    }
  }
}
