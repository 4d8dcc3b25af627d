/** The values pkg/mq/inmemory.go works on, shared by the protocol (every
    interleaving) and by the class (one caller at a time). */
module QueueTypes {
  import opened Domain

  const DEFAULT_BUFFER_SIZE := 100
  const SECOND := 1_000_000_000
  const ACK_TIMEOUT := 30 * SECOND
  const PENDING_TTL := 300 * SECOND
  /** How many times `deliverMessage` tries before it gives a message up to the backlog. */
  const MAX_RETRIES := 100

  datatype Config = Config(bufferSize: nat, ackTimeout: int, pendingTtl: int) {
    function MaxUndelivered(): nat { bufferSize }
    function MaxPending(): nat { bufferSize * 10 }

    /** The switch of the redelivery sweep, on the age of a pending entry. */
    predicate Expires(elapsed: int) { elapsed > pendingTtl }
    predicate TimesOut(elapsed: int) { !Expires(elapsed) && elapsed > ackTimeout }
  }

  function NewConfig(bufferSize: int): Config {
    Config(if bufferSize <= 0 then DEFAULT_BUFFER_SIZE else bufferSize, ACK_TIMEOUT, PENDING_TTL)
  }

  datatype Pending = Pending(message: Message, consumerId: string, deliveredAt: int)

  /** A subscriber: its bounded channel, the `closed` flag, whether the channel
      itself has been closed, and whether its context is done.  When the context
      is done and there is room, Go's select picks either case: `sendWins` is
      that pick. */
  datatype Subscriber = Subscriber(
    consumerId: string,
    channel: seq<Message>,
    closed: bool,
    shut: bool,
    ctxDone: bool,
    sendWins: bool)

  /** `safeSend` succeeds (a send on a shut channel panics and is recovered as a refusal). */
  predicate Accepts(c: Config, sub: Subscriber) {
    !sub.closed && !sub.shut && |sub.channel| < c.bufferSize && (!sub.ctxDone || sub.sendWins)
  }

  /** `ids` lists the set `keys` without repetition, in some order. */
  ghost predicate Lists(ids: seq<string>, keys: set<string>) {
    && (forall i, j :: 0 <= i < j < |ids| ==> ids[i] != ids[j])
    && (forall id :: id in ids <==> id in keys)
  }

  lemma ListsHead(ids: seq<string>, keys: set<string>)
    requires Lists(ids, keys)
    ensures ids != [] ==> ids[0] in keys
  {
  }

  function LateIds(c: Config, pending: map<string, Pending>, now: int): set<string> {
    set id | id in pending && c.TimesOut(now - pending[id].deliveredAt)
  }

  function ExpiredIds(c: Config, pending: map<string, Pending>, now: int): set<string> {
    set id | id in pending && c.Expires(now - pending[id].deliveredAt)
  }

  function MessagesOf(pending: map<string, Pending>, ids: seq<string>): seq<Message>
    requires forall id :: id in ids ==> id in pending
  {
    if ids == [] then [] else [pending[ids[0]].message] + MessagesOf(pending, ids[1..])
  }

  // ------------------------------------------------------ a sweep, written out

  /** The entries among `ids` that carry the message. */
  function Bearers(pending: map<string, Pending>, ids: seq<string>, m: Message): set<string> {
    set id | id in ids && id in pending && pending[id].message == m
  }

  lemma BearersStep(pending: map<string, Pending>, ids: seq<string>, m: Message)
    requires ids != [] && ids[0] in pending && ids[0] !in ids[1..]
    ensures |Bearers(pending, ids, m)| == |Bearers(pending, ids[1..], m)| + if pending[ids[0]].message == m then 1 else 0
  {
    var first, rest := ids[0], ids[1..];
    assert forall id :: id in ids <==> id == first || id in rest;
    assert Bearers(pending, ids, m) == Bearers(pending, rest, m) + if pending[first].message == m then {first} else {};
  }

  lemma MessagesOfStep(pending: map<string, Pending>, ids: seq<string>, m: Message)
    requires ids != [] && forall id :: id in ids ==> id in pending
    ensures multiset(MessagesOf(pending, ids))[m] ==
            multiset(MessagesOf(pending, ids[1..]))[m] + if pending[ids[0]].message == m then 1 else 0
  {
    assert multiset(MessagesOf(pending, ids)) == multiset{pending[ids[0]].message} + multiset(MessagesOf(pending, ids[1..]));
  }

  /** How often a message occurs among those of some pending entries. */
  lemma {:induction false} MessagesOfCounts(pending: map<string, Pending>, ids: seq<string>, m: Message)
    requires forall i, j :: 0 <= i < j < |ids| ==> ids[i] != ids[j]
    requires forall id :: id in ids ==> id in pending
    ensures multiset(MessagesOf(pending, ids))[m] == |Bearers(pending, ids, m)|
  {
    if ids != [] {
      assert ids[0] !in ids[1..];
      MessagesOfCounts(pending, ids[1..], m);
      BearersStep(pending, ids, m);
      MessagesOfStep(pending, ids, m);
    }
  }

  /** What a sweep leaves: the entries within both time limits. */
  lemma SweepLeaves(c: Config, pending: map<string, Pending>, now: int)
    ensures var kept := pending - LateIds(c, pending, now) - ExpiredIds(c, pending, now);
            && (forall id :: id in kept ==> id in pending && kept[id] == pending[id])
            && (forall id :: id in pending ==>
                  (id in kept <==> now - pending[id].deliveredAt <= c.ackTimeout
                                   && now - pending[id].deliveredAt <= c.pendingTtl))
  {
  }

  /** What it takes out for redelivery: one message per entry over the Ack timeout
      and not over the TTL. */
  lemma SweepRedelivers(c: Config, pending: map<string, Pending>, now: int, ids: seq<string>, m: Message)
    requires Lists(ids, LateIds(c, pending, now))
    ensures forall id :: id in ids ==> id in pending
    ensures multiset(MessagesOf(pending, ids))[m] ==
            |set id | id in pending && pending[id].message == m
                      && c.ackTimeout < now - pending[id].deliveredAt <= c.pendingTtl|
  {
    MessagesOfCounts(pending, ids, m);
    assert Bearers(pending, ids, m) ==
           (set id | id in pending && pending[id].message == m
                     && c.ackTimeout < now - pending[id].deliveredAt <= c.pendingTtl);
  }

  /** What it deletes for good: one message per entry over the TTL. */
  lemma SweepDeletes(c: Config, pending: map<string, Pending>, now: int, ids: seq<string>, m: Message)
    requires Lists(ids, ExpiredIds(c, pending, now))
    ensures forall id :: id in ids ==> id in pending
    ensures multiset(MessagesOf(pending, ids))[m] ==
            |set id | id in pending && pending[id].message == m && now - pending[id].deliveredAt > c.pendingTtl|
  {
    MessagesOfCounts(pending, ids, m);
    assert Bearers(pending, ids, m) ==
           (set id | id in pending && pending[id].message == m && now - pending[id].deliveredAt > c.pendingTtl);
  }
}
