/** `deliverMessage` as a function of what it sees when nothing else runs: whom
    it picks, how often it is refused, and what round-robin makes of a series. */
module RoundRobin {
  import opened DivMod
  import opened Domain
  import opened QueueTypes

  /** The part of the queue a delivery works on. */
  datatype Ring = Ring(
    subs: seq<Subscriber>,
    cursor: nat,
    backlog: seq<Message>,
    pending: map<string, Pending>)

  /** The position of the first attempt. */
  function Start(r: Ring): nat {
    if r.cursor >= |r.subs| then 0 else r.cursor
  }

  /** Whether attempt number `x`, counted so that it falls on position x mod n, succeeds. */
  predicate AcceptsAt(c: Config, subs: seq<Subscriber>, x: nat)
    requires subs != []
  {
    Accepts(c, subs[x % |subs|])
  }

  /** How many refusals are met from attempt `start` on, going round, before the
      first acceptance; at most `limit`. */
  function Refusals(c: Config, subs: seq<Subscriber>, start: nat, limit: nat): nat
    requires subs != []
    decreases limit
  {
    if limit == 0 || AcceptsAt(c, subs, start) then 0
    else 1 + Refusals(c, subs, start + 1, limit - 1)
  }

  lemma {:induction false} RefusalsStopAtFirstAcceptance(c: Config, subs: seq<Subscriber>, start: nat, limit: nat)
    requires subs != []
    ensures Refusals(c, subs, start, limit) <= limit
    ensures forall x :: start <= x < start + Refusals(c, subs, start, limit) ==> !AcceptsAt(c, subs, x)
    ensures Refusals(c, subs, start, limit) < limit ==> AcceptsAt(c, subs, start + Refusals(c, subs, start, limit))
    decreases limit
  {
    if limit == 0 || AcceptsAt(c, subs, start) {
    } else {
      RefusalsStopAtFirstAcceptance(c, subs, start + 1, limit - 1);
    }
  }

  function Buffer(c: Config, r: Ring, m: Message): Ring {
    if |r.backlog| < c.MaxUndelivered() then r.(backlog := r.backlog + [m]) else r
  }

  function BufferEach(c: Config, r: Ring, ms: seq<Message>): Ring
    decreases |ms|
  {
    if ms == [] then r else BufferEach(c, Buffer(c, r, ms[0]), ms[1..])
  }

  function Push(sub: Subscriber, m: Message): Subscriber {
    sub.(channel := sub.channel + [m])
  }

  /** The subscriber at position `i` gets the message and it becomes pending if there is room. */
  function SendTo(c: Config, r: Ring, i: nat, m: Message, now: int): Ring
    requires i < |r.subs|
  {
    r.(subs := r.subs[i := Push(r.subs[i], m)],
       pending := if |r.pending| < c.MaxPending()
                  then r.pending[m.id := Pending(m, r.subs[i].consumerId, now)]
                  else r.pending)
  }

  predicate Delivers(c: Config, r: Ring) {
    r.subs != [] && Refusals(c, r.subs, Start(r), MAX_RETRIES) < MAX_RETRIES
  }

  function Deliver(c: Config, r: Ring, m: Message, now: int): Ring {
    if r.subs == [] then Buffer(c, r, m)
    else
      var n, k := |r.subs|, Refusals(c, r.subs, Start(r), MAX_RETRIES);
      if k < MAX_RETRIES
      then SendTo(c, r.(cursor := (Start(r) + k + 1) % n), (Start(r) + k) % n, m, now)
      else Buffer(c, r.(cursor := (Start(r) + k) % n), m)
  }

  function DeliverAll(c: Config, r: Ring, ms: seq<Message>, now: int): Ring
    decreases |ms|
  {
    if ms == [] then r else DeliverAll(c, Deliver(c, r, ms[0], now), ms[1..], now)
  }

  lemma {:induction false} DeliverAllSnoc(c: Config, r: Ring, ms: seq<Message>, m: Message, now: int)
    ensures DeliverAll(c, r, ms + [m], now) == Deliver(c, DeliverAll(c, r, ms, now), m, now)
    decreases |ms|
  {
    if ms == [] {
      assert ms + [m] == [m];
    } else {
      DeliverAllSnoc(c, Deliver(c, r, ms[0], now), ms[1..], m, now);
      assert (ms + [m])[1..] == ms[1..] + [m];
    }
  }

  lemma {:induction false} BufferEachSnoc(c: Config, r: Ring, ms: seq<Message>, m: Message)
    ensures BufferEach(c, r, ms + [m]) == Buffer(c, BufferEach(c, r, ms), m)
    decreases |ms|
  {
    if ms == [] {
      assert ms + [m] == [m];
    } else {
      BufferEachSnoc(c, Buffer(c, r, ms[0]), ms[1..], m);
      assert (ms + [m])[1..] == ms[1..] + [m];
    }
  }

  /** The distributor's handling of one message: without subscribers it joins
      the backlog; otherwise the backlog is flushed before it. */
  function Distribute(c: Config, r: Ring, m: Message, now: int): Ring {
    if r.subs == [] then Buffer(c, r, m) else DeliverAll(c, r.(backlog := []), r.backlog + [m], now)
  }

  function DistributeAll(c: Config, r: Ring, ms: seq<Message>, now: int): Ring {
    if ms == [] then r
    else Distribute(c, DistributeAll(c, r, ms[..|ms| - 1], now), ms[|ms| - 1], now)
  }

  lemma DistributeAllSnoc(c: Config, r: Ring, ms: seq<Message>, m: Message, now: int)
    ensures DistributeAll(c, r, ms + [m], now) == Distribute(c, DistributeAll(c, r, ms, now), m, now)
  {
    assert (ms + [m])[..|ms|] == ms;
  }

  // ------------------------------------------------------ work conservation

  lemma RefusalsAre(c: Config, subs: seq<Subscriber>, start: nat, limit: nat, d: nat)
    requires subs != [] && d < limit && AcceptsAt(c, subs, start + d)
    requires forall x :: start <= x < start + d ==> !AcceptsAt(c, subs, x)
    ensures Refusals(c, subs, start, limit) == d
  {
    RefusalsStopAtFirstAcceptance(c, subs, start, limit);
  }

  /** The first accepting subscriber in cyclic order from the cursor, if it is
      among the first 100 attempts, gets the message at the end of its channel; it
      becomes pending for that subscriber if fewer than 10 times the buffer size
      are, the cursor moves past it, and nothing else changes. */
  lemma FirstAcceptingGetsIt(c: Config, r: Ring, m: Message, now: int, d: nat)
    requires r.subs != [] && d < 100
    requires var start := if r.cursor < |r.subs| then r.cursor else 0;
             AcceptsAt(c, r.subs, start + d) && forall x :: start <= x < start + d ==> !AcceptsAt(c, r.subs, x)
    ensures Delivers(c, r)
    ensures var i := ((if r.cursor < |r.subs| then r.cursor else 0) + d) % |r.subs|;
            Deliver(c, r, m, now) ==
            r.(subs := r.subs[i := r.subs[i].(channel := r.subs[i].channel + [m])],
               cursor := (i + 1) % |r.subs|,
               pending := if |r.pending| < 10 * c.bufferSize
                          then r.pending[m.id := Pending(m, r.subs[i].consumerId, now)] else r.pending)
  {
    RefusalsAre(c, r.subs, Start(r), MAX_RETRIES, d);
    ModAddOne(Start(r) + d, |r.subs|);
    hide Refusals, AcceptsAt;
    SendToIs(c, r.(cursor := (Start(r) + d + 1) % |r.subs|), (Start(r) + d) % |r.subs|, m, now);
    hide SendTo;
  }

  /** What a send changes, written out. */
  lemma SendToIs(c: Config, r: Ring, i: nat, m: Message, now: int)
    requires i < |r.subs|
    ensures SendTo(c, r, i, m, now) ==
            r.(subs := r.subs[i := r.subs[i].(channel := r.subs[i].channel + [m])],
               pending := if |r.pending| < 10 * c.bufferSize
                          then r.pending[m.id := Pending(m, r.subs[i].consumerId, now)] else r.pending)
  {
  }

  /** With at most 100 subscribers a message is given up exactly when all refuse. */
  lemma GivesUpOnlyIfAllRefuse(c: Config, r: Ring)
    requires 0 < |r.subs| <= 100
    ensures !Delivers(c, r) <==> forall i :: 0 <= i < |r.subs| ==> !Accepts(c, r.subs[i])
  {
    var n, s := |r.subs|, Start(r);
    RefusalsStopAtFirstAcceptance(c, r.subs, s, MAX_RETRIES);
    if !Delivers(c, r) {
      forall i | 0 <= i < n ensures !Accepts(c, r.subs[i]) {
        var x := if i >= s then i else i + n;
        DivModUnique(x, if i >= s then 0 else 1, i, n);
        assert !AcceptsAt(c, r.subs, x);
      }
    }
  }

  /** Everything that waits in the ring: in a channel or in the backlog. */
  function Waiting(r: Ring): multiset<Message> {
    InChannels(r.subs) + multiset(r.backlog)
  }

  function InChannels(subs: seq<Subscriber>): multiset<Message> {
    if subs == [] then multiset{} else multiset(subs[0].channel) + InChannels(subs[1..])
  }

  lemma {:induction false} InChannelsPush(subs: seq<Subscriber>, i: nat, m: Message)
    requires i < |subs|
    ensures InChannels(subs[i := Push(subs[i], m)]) == InChannels(subs) + multiset{m}
  {
    var subs' := subs[i := Push(subs[i], m)];
    if i == 0 {
      assert subs'[1..] == subs[1..];
    } else {
      InChannelsPush(subs[1..], i - 1, m);
      assert subs'[1..] == subs[1..][i - 1 := Push(subs[i], m)];
    }
  }

  /** A delivery either extends one channel by the message, or leaves channels and
      pending alone and puts the message at the end of the backlog, if there is room. */
  lemma WhereItGoes(c: Config, r: Ring, m: Message, now: int) returns (i: nat)
    ensures var r' := Deliver(c, r, m, now);
            if Delivers(c, r)
            then i < |r.subs| && r'.backlog == r.backlog
                 && r'.subs == r.subs[i := r.subs[i].(channel := r.subs[i].channel + [m])]
            else r'.subs == r.subs && r'.pending == r.pending
                 && r'.backlog == if |r.backlog| < c.bufferSize then r.backlog + [m] else r.backlog
  {
    i := 0;
    if r.subs != [] {
      RefusalsStopAtFirstAcceptance(c, r.subs, Start(r), MAX_RETRIES);
      i := (Start(r) + Refusals(c, r.subs, Start(r), MAX_RETRIES)) % |r.subs|;
    }
  }

  /** Work conservation: what waits afterwards is what waited before and the
      message, once, unless all subscribers (at most 100) refuse and the backlog is
      full: then, and only then, the message is lost.  No channel receives it
      exactly if all refuse. */
  lemma LostIffAllRefuseAndFull(c: Config, r: Ring, m: Message, now: int)
    requires |r.subs| <= 100 && |r.backlog| <= c.bufferSize
    ensures var r' := Deliver(c, r, m, now);
            var refused := forall i :: 0 <= i < |r.subs| ==> !Accepts(c, r.subs[i]);
            && (r'.subs == r.subs <==> refused)
            && Waiting(r') == Waiting(r) + if refused && |r.backlog| == c.bufferSize then multiset{} else multiset{m}
  {
    assert r.subs == [] ==> !Delivers(c, r);
    if r.subs != [] { GivesUpOnlyIfAllRefuse(c, r); }
    hide Deliver, Delivers, Accepts, Waiting;
    var i := WhereItGoes(c, r, m, now);
    var r' := Deliver(c, r, m, now);
    if Delivers(c, r) {
      WaitsInChannel(r, r', i, m);
    } else {
      WaitsInBacklog(r, r', m);
    }
  }

  lemma WaitsInChannel(r: Ring, r': Ring, i: nat, m: Message)
    requires i < |r.subs| && r'.backlog == r.backlog && r'.subs == r.subs[i := Push(r.subs[i], m)]
    ensures Waiting(r') == Waiting(r) + multiset{m} && r'.subs != r.subs
  {
    InChannelsPush(r.subs, i, m);
    assert r.subs[i].channel != r.subs[i].channel + [m];
  }

  lemma WaitsInBacklog(r: Ring, r': Ring, m: Message)
    requires r'.subs == r.subs
    ensures r'.backlog == r.backlog + [m] ==> Waiting(r') == Waiting(r) + multiset{m}
    ensures r'.backlog == r.backlog ==> Waiting(r') == Waiting(r)
  {
    hide InChannels;
  }

  // ------------------------------------------------------- rounds, in a row

  lemma {:induction false} DistributeAllCons(c: Config, r: Ring, m: Message, ms: seq<Message>, now: int)
    ensures DistributeAll(c, r, [m] + ms, now) == DistributeAll(c, Distribute(c, r, m, now), ms, now)
    decreases |ms|
  {
    hide Distribute;
    if ms == [] {
      assert [m] + ms == [] + [m];
      DistributeAllSnoc(c, r, [], m, now);
    } else {
      var n := |ms| - 1;
      DistributeAllCons(c, r, m, ms[..n], now);
      assert [m] + ms == ([m] + ms[..n]) + [ms[n]];
      DistributeAllSnoc(c, r, [m] + ms[..n], ms[n], now);
    }
  }

  /** Without subscribers the backlog takes what comes, oldest first, as far as it has room. */
  lemma {:induction false} NobodyListening(c: Config, r: Ring, ms: seq<Message>, now: int)
    requires r.subs == [] && |r.backlog| <= c.bufferSize
    ensures var all := r.backlog + ms;
            DistributeAll(c, r, ms, now) == r.(backlog := if |all| <= c.bufferSize then all else all[..c.bufferSize])
    decreases |ms|
  {
    if ms == [] {
      assert r.backlog + ms == r.backlog;
    } else {
      var n := |ms| - 1;
      NobodyListening(c, r, ms[..n], now);
      assert r.backlog + ms == (r.backlog + ms[..n]) + [ms[n]];
    }
  }

  /** All subscribers refuse and the backlog is full. */
  ghost predicate Jammed(c: Config, r: Ring) {
    |r.backlog| == c.bufferSize && forall i :: 0 <= i < |r.subs| ==> !Accepts(c, r.subs[i])
  }

  /** What waits in `r'` is what waited in `r` and the messages, none of them lost;
      or some are lost, and then all refuse and the backlog is full. */
  ghost predicate KeepsOrJams(c: Config, r: Ring, more: multiset<Message>, r': Ring) {
    && |r'.subs| == |r.subs| && |r'.backlog| <= c.bufferSize
    && Waiting(r') <= Waiting(r) + more
    && (Waiting(r') == Waiting(r) + more || Jammed(c, r'))
  }

  /** Buffering a batch fills the backlog as far as it has room. */
  lemma {:induction false} BufferEachFills(c: Config, r: Ring, ms: seq<Message>)
    requires |r.backlog| <= c.bufferSize
    ensures var all := r.backlog + ms;
            BufferEach(c, r, ms) == r.(backlog := if |all| <= c.bufferSize then all else all[..c.bufferSize])
    decreases |ms|
  {
    if ms == [] {
      assert r.backlog + ms == r.backlog;
    } else {
      BufferEachFills(c, Buffer(c, r, ms[0]), ms[1..]);
      CutTwice(r.backlog, ms, c.bufferSize);
    }
  }

  lemma FilledKeepsOrJams(c: Config, r: Ring, ms: seq<Message>, r': Ring)
    requires r.subs == [] == r'.subs && |r.backlog| <= c.bufferSize
    requires var all := r.backlog + ms; r'.backlog == if |all| <= c.bufferSize then all else all[..c.bufferSize]
    ensures KeepsOrJams(c, r, multiset(ms), r')
  {
    var all := r.backlog + ms;
    assert multiset(all) == multiset(r.backlog) + multiset(ms);
    assert Waiting(r) == multiset(r.backlog) && Waiting(r') == multiset(r'.backlog);
    if |all| > c.bufferSize {
      assert all == all[..c.bufferSize] + all[c.bufferSize..];
      assert multiset(all) == multiset(all[..c.bufferSize]) + multiset(all[c.bufferSize..]);
    }
  }

  predicate AllRefuse(c: Config, subs: seq<Subscriber>) {
    forall i :: 0 <= i < |subs| ==> !Accepts(c, subs[i])
  }

  lemma RefusedOnce(c: Config, r: Ring, m: Message, now: int)
    requires |r.subs| <= 100 && AllRefuse(c, r.subs)
    ensures var r' := Deliver(c, r, m, now);
            && r'.subs == r.subs && r'.pending == r.pending
            && r'.backlog == if |r.backlog| < c.bufferSize then r.backlog + [m] else r.backlog
  {
    assert r.subs == [] ==> !Delivers(c, r);
    if r.subs != [] { GivesUpOnlyIfAllRefuse(c, r); }
    hide Deliver, Delivers;
    var _ := WhereItGoes(c, r, m, now);
  }

  /** While all refuse, a series goes to the backlog as far as it has room. */
  lemma {:induction false} RefusedSeries(c: Config, r: Ring, ms: seq<Message>, now: int)
    requires |r.subs| <= 100 && AllRefuse(c, r.subs) && |r.backlog| <= c.bufferSize
    ensures var r', all := DeliverAll(c, r, ms, now), r.backlog + ms;
            && r'.subs == r.subs && r'.pending == r.pending
            && r'.backlog == if |all| <= c.bufferSize then all else all[..c.bufferSize]
    decreases |ms|
  {
    if ms == [] {
      assert r.backlog + ms == r.backlog;
    } else {
      hide Deliver, AllRefuse;
      RefusedOnce(c, r, ms[0], now);
      RefusedSeries(c, Deliver(c, r, ms[0], now), ms[1..], now);
      CutTwice(r.backlog, ms, c.bufferSize);
    }
  }

  /** Cutting one by one is cutting once. */
  lemma CutTwice(before: seq<Message>, ms: seq<Message>, size: nat)
    requires |before| <= size && ms != []
    ensures var once := if |before| < size then before + [ms[0]] else before;
            var all, twice := before + ms, once + ms[1..];
            (if |twice| <= size then twice else twice[..size]) == if |all| <= size then all else all[..size]
  {
    if |before| < size {
      assert before + ms == (before + [ms[0]]) + ms[1..];
    } else {
      assert (before + ms[1..])[..size] == before == (before + ms)[..size];
    }
  }

  lemma DeliverKeepsOrJams(c: Config, r: Ring, m: Message, now: int)
    requires |r.subs| <= 100 && |r.backlog| <= c.bufferSize
    ensures KeepsOrJams(c, r, multiset{m}, Deliver(c, r, m, now))
  {
    LostIffAllRefuseAndFull(c, r, m, now);
    hide Deliver, Waiting;
    var _ := WhereItGoes(c, r, m, now);
  }

  lemma KeepsOrJamsOn(c: Config, r: Ring, a: multiset<Message>, mid: Ring, b: multiset<Message>, r': Ring)
    requires KeepsOrJams(c, r, a, mid) && KeepsOrJams(c, mid, b, r') && (Jammed(c, mid) ==> Jammed(c, r'))
    ensures KeepsOrJams(c, r, a + b, r')
  {
    hide Waiting, Jammed;
    assert Waiting(mid) + b <= Waiting(r) + (a + b);
  }

  lemma JammedSeries(c: Config, r: Ring, ms: seq<Message>, now: int)
    requires |r.subs| <= 100 && Jammed(c, r)
    ensures Jammed(c, DeliverAll(c, r, ms, now))
  {
    RefusedSeries(c, r, ms, now);
  }

  lemma {:induction false} SeriesKeepsOrJams(c: Config, r: Ring, ms: seq<Message>, now: int)
    requires |r.subs| <= 100 && |r.backlog| <= c.bufferSize
    ensures KeepsOrJams(c, r, multiset(ms), DeliverAll(c, r, ms, now))
    decreases |ms|
  {
    if ms != [] {
      var mid := Deliver(c, r, ms[0], now);
      DeliverKeepsOrJams(c, r, ms[0], now);
      assert |mid.subs| <= 100 && |mid.backlog| <= c.bufferSize;
      hide Deliver, KeepsOrJams, Jammed;
      SeriesKeepsOrJams(c, mid, ms[1..], now);
      if Jammed(c, mid) { JammedSeries(c, mid, ms[1..], now); }
      KeepsOrJamsOn(c, r, multiset{ms[0]}, mid, multiset(ms[1..]), DeliverAll(c, r, ms, now));
      assert ms == [ms[0]] + ms[1..];
    }
  }

  lemma RoundKeepsOrJams(c: Config, r: Ring, m: Message, now: int)
    requires |r.subs| <= 100 && |r.backlog| <= c.bufferSize
    ensures KeepsOrJams(c, r, multiset{m}, Distribute(c, r, m, now))
    ensures Jammed(c, r) ==> Jammed(c, Distribute(c, r, m, now))
  {
    if r.subs != [] {
      var flushed := r.(backlog := []);
      SeriesKeepsOrJams(c, flushed, r.backlog + [m], now);
      if Jammed(c, r) { RefusedSeries(c, flushed, r.backlog + [m], now); }
      hide DeliverAll, InChannels;
      assert Waiting(flushed) + multiset(r.backlog + [m]) == Waiting(r) + multiset{m};
      assert [] + (r.backlog + [m]) == r.backlog + [m] && (r.backlog + [m])[..|r.backlog|] == r.backlog;
    } else {
      hide InChannels;
    }
  }

  lemma LastOfMany(ms: seq<Message>)
    requires ms != []
    ensures multiset(ms) == multiset(ms[..|ms| - 1]) + multiset{ms[|ms| - 1]}
  {
    assert ms == ms[..|ms| - 1] + [ms[|ms| - 1]];
  }

  /** Rounds lose nothing but at a full backlog: with at most 100 subscribers, what
      waits in channels and backlog after any number of rounds is what waited before
      and the messages taken in; or something is lost, and then every subscriber
      refuses and the backlog is full. */
  lemma {:induction false} RoundsKeepOrJam(c: Config, r: Ring, ms: seq<Message>, now: int)
    requires |r.subs| <= 100 && |r.backlog| <= c.bufferSize
    ensures KeepsOrJams(c, r, multiset(ms), DistributeAll(c, r, ms, now))
    decreases |ms|
  {
    if ms != [] {
      var n := |ms| - 1;
      RoundsKeepOrJam(c, r, ms[..n], now);
      var mid := DistributeAll(c, r, ms[..n], now);
      var end := DistributeAll(c, r, ms, now);
      assert |mid.subs| <= 100 && |mid.backlog| <= c.bufferSize && end == Distribute(c, mid, ms[n], now);
      hide Distribute, KeepsOrJams, Jammed, DistributeAll;
      RoundKeepsOrJams(c, mid, ms[n], now);
      KeepsOrJamsOn(c, r, multiset(ms[..n]), mid, multiset{ms[n]}, end);
      LastOfMany(ms);
    }
  }

  /** Rounds, written out: none change nothing; without subscribers they fill the
      backlog; with at most 100 they lose nothing but at a full backlog. */
  lemma WhatRoundsDo(c: Config, r: Ring, ms: seq<Message>, now: int)
    requires |r.backlog| <= c.bufferSize
    ensures var r', all := DistributeAll(c, r, ms, now), r.backlog + ms;
            && (ms == [] ==> r' == r)
            && (r.subs == [] ==> r' == r.(backlog := if |all| <= c.bufferSize then all else all[..c.bufferSize]))
            && (|r.subs| <= 100 ==> KeepsOrJams(c, r, multiset(ms), r'))
  {
    if r.subs == [] { NobodyListening(c, r, ms, now); }
    if |r.subs| <= 100 { RoundsKeepOrJam(c, r, ms, now); }
  }

  // ------------------------------------------------------------- fair shares

  /** The attempts among `k` consecutive ones, from position `start`, that fall on `i`. */
  function Turns(start: nat, k: nat, n: nat, i: nat): nat
    requires n > 0
    decreases k
  {
    if k == 0 then 0 else (if start % n == i then 1 else 0) + Turns(start + 1, k - 1, n, i)
  }

  lemma TurnStep(x: nat, n: nat, i: nat)
    requires i < n
    ensures (x + 1 + n - 1 - i) / n == (x + n - 1 - i) / n + if x % n == i then 1 else 0
  {
    var y := x + n - 1 - i;
    var q, r := x / n, x % n;
    DivModStep(y, n);
    assert x == q * n + r;
    if r <= i {
      DivModUnique(y, q, r + n - 1 - i, n);
    } else {
      assert (q + 1) * n == q * n + n;
      DivModUnique(y, q + 1, r - 1 - i, n);
    }
  }

  lemma {:induction false} TurnsClosedForm(start: nat, k: nat, n: nat, i: nat)
    requires i < n
    ensures Turns(start, k, n, i) == (start + k + n - 1 - i) / n - (start + n - 1 - i) / n
    decreases k
  {
    if k == 0 {
    } else {
      TurnStep(start, n, i);
      TurnsClosedForm(start + 1, k - 1, n, i);
    }
  }

  /** Everybody's turns among k attempts: k / n, rounded down or up. */
  lemma TurnsAreFair(start: nat, k: nat, n: nat, i: nat)
    requires i < n
    ensures k / n <= Turns(start, k, n, i) <= (k + n - 1) / n
  {
    TurnsClosedForm(start, k, n, i);
    DivSpan(start + n - 1 - i, k, n);
  }

  /** Giving up means that every subscriber refused at least 100 / n times. */
  lemma GivingUpTriedEveryone(c: Config, r: Ring, i: nat)
    requires i < |r.subs| && !Delivers(c, r)
    ensures Turns(Start(r), 100, |r.subs|, i) >= 100 / |r.subs|
    ensures forall x :: Start(r) <= x < Start(r) + 100 ==> !AcceptsAt(c, r.subs, x)
  {
    TurnsAreFair(Start(r), MAX_RETRIES, |r.subs|, i);
    RefusalsStopAtFirstAcceptance(c, r.subs, Start(r), MAX_RETRIES);
  }

  /** The messages of a series that fall to position `i`: every n-th one. */
  function Share(ms: seq<Message>, start: nat, n: nat, i: nat): seq<Message>
    requires n > 0
  {
    if ms == [] then []
    else (if start % n == i then [ms[0]] else []) + Share(ms[1..], start + 1, n, i)
  }

  lemma {:induction false} ShareCounts(ms: seq<Message>, start: nat, n: nat, i: nat)
    requires n > 0
    ensures |Share(ms, start, n, i)| == Turns(start, |ms|, n, i)
  {
    if ms == [] {
    } else {
      ShareCounts(ms[1..], start + 1, n, i);
    }
  }

  predicate Open(sub: Subscriber) {
    !sub.closed && !sub.shut && !sub.ctxDone
  }

  /** Room for everybody's share. */
  ghost predicate HasRoom(c: Config, subs: seq<Subscriber>, ms: seq<Message>, start: nat) {
    forall i :: 0 <= i < |subs| ==>
      Open(subs[i]) && |subs[i].channel| + |Share(ms, start, |subs|, i)| <= c.bufferSize
  }

  /** An open subscriber with room, when its turn comes, gets the message. */
  lemma TurnIsTaken(c: Config, r: Ring, m: Message, now: int, start: nat)
    requires r.subs != [] && r.cursor == start % |r.subs|
    requires Open(r.subs[r.cursor]) && |r.subs[r.cursor].channel| < c.bufferSize
    ensures var r' := Deliver(c, r, m, now);
            r'.subs == r.subs[r.cursor := Push(r.subs[r.cursor], m)] && r'.cursor == (start + 1) % |r.subs|
  {
    DivModUnique(r.cursor, 0, r.cursor, |r.subs|);
    assert AcceptsAt(c, r.subs, Start(r));
    ModAddOne(start, |r.subs|);
  }

  lemma RoomIsLeft(c: Config, subs: seq<Subscriber>, ms: seq<Message>, start: nat)
    requires subs != [] && ms != [] && HasRoom(c, subs, ms, start)
    ensures var h := start % |subs|;
            && |subs[h].channel| < c.bufferSize
            && HasRoom(c, subs[h := Push(subs[h], ms[0])], ms[1..], start + 1)
  {
    var n, h := |subs|, start % |subs|;
    forall i | 0 <= i < n
      ensures |Share(ms, start, n, i)| == (if i == h then 1 else 0) + |Share(ms[1..], start + 1, n, i)|
    { }
  }

  /** Every channel has grown by its share of the series, and nothing else changed. */
  ghost predicate TookShares(subs: seq<Subscriber>, subs': seq<Subscriber>, ms: seq<Message>, start: nat) {
    && |subs'| == |subs|
    && forall i :: 0 <= i < |subs| ==>
         subs'[i] == subs[i].(channel := subs[i].channel + Share(ms, start, |subs|, i))
  }

  lemma SharesCompose(subs: seq<Subscriber>, subs': seq<Subscriber>, ms: seq<Message>, start: nat)
    requires subs != [] && ms != []
    requires var h := start % |subs|; TookShares(subs[h := Push(subs[h], ms[0])], subs', ms[1..], start + 1)
    ensures TookShares(subs, subs', ms, start)
  {
    var n, h := |subs|, start % |subs|;
    forall i | 0 <= i < n
      ensures subs'[i] == subs[i].(channel := subs[i].channel + Share(ms, start, n, i))
    {
      var rest := Share(ms[1..], start + 1, n, i);
      if i == h {
        assert (subs[h].channel + [ms[0]]) + rest == subs[h].channel + ([ms[0]] + rest);
      } else {
        assert [] + rest == rest;
      }
    }
  }

  /** Delivery j of a series goes to position (start + j) mod n. */
  lemma {:induction false} SeriesGoesRound(c: Config, r: Ring, ms: seq<Message>, now: int, start: nat)
    requires r.subs != [] && r.cursor == start % |r.subs| && HasRoom(c, r.subs, ms, start)
    ensures TookShares(r.subs, DeliverAll(c, r, ms, now).subs, ms, start)
    ensures DeliverAll(c, r, ms, now).cursor == (start + |ms|) % |r.subs|
    decreases |ms|
  {
    if ms == [] {
    } else {
      RoomIsLeft(c, r.subs, ms, start);
      assert Open(r.subs[r.cursor]);
      hide Deliver, Refusals, HasRoom, TookShares, Share;
      TurnIsTaken(c, r, ms[0], now, start);
      SeriesGoesRound(c, Deliver(c, r, ms[0], now), ms[1..], now, start + 1);
      SharesCompose(r.subs, DeliverAll(c, r, ms, now).subs, ms, start);
    }
  }

  /** Round-robin fairness: with n open subscribers that have room for k / n
      (rounded up) more messages, k deliveries from cursor c append to each
      subscriber's channel the messages (c + j) mod n hands it, and each gets
      k / n of them, rounded down or up. */
  lemma RoundRobinIsFair(c: Config, r: Ring, ms: seq<Message>, now: int, i: nat)
    requires i < |r.subs| && r.cursor < |r.subs|
    requires forall h :: 0 <= h < |r.subs| ==>
               Open(r.subs[h]) && |r.subs[h].channel| + (|ms| + |r.subs| - 1) / |r.subs| <= c.bufferSize
    ensures var n := |r.subs|;
            var r' := DeliverAll(c, r, ms, now);
            && |r'.subs| == n
            && r'.subs[i].channel == r.subs[i].channel + Share(ms, r.cursor, n, i)
            && |ms| / n <= |Share(ms, r.cursor, n, i)| <= (|ms| + n - 1) / n
  {
    var n := |r.subs|;
    forall h | 0 <= h < n ensures |Share(ms, r.cursor, n, h)| <= (|ms| + n - 1) / n {
      ShareCounts(ms, r.cursor, n, h);
      TurnsAreFair(r.cursor, |ms|, n, h);
    }
    ShareCounts(ms, r.cursor, n, i);
    TurnsAreFair(r.cursor, |ms|, n, i);
    DivModUnique(r.cursor, 0, r.cursor, n);
    SeriesGoesRound(c, r, ms, now, r.cursor);
  }
}
