/**
  The part of Redis the service relies on: one stream with one consumer group,
  the delivery-claim keys, the dead-letter stream and the clock. `Store` is the
  value of that state and each command is a function on it; class `Redis` holds
  the same state in fields and its methods are proved against those functions.

  Stream ids are naturals: the server hands them out in increasing order, and
  only their order matters. Keys are never trimmed (MAXLEN is not reached).
 */
module RedisStore {

  type Mid = string
  type EntryId = nat

  /** A normalized event, reduced to what delivery reads: the rest is `body`. */
  datatype Event = Event(mid: Mid, retry: nat, body: string)

  /** The fields of one stream entry, as _decode tells them apart. */
  datatype Payload = NoField | BadJson | Json(event: Event)

  datatype Delivery = Delivery(consumer: string, at: real)

  datatype ClaimValue = InFlight | Done

  datatype Claim = Claim(value: ClaimValue, expiry: real)

  /** What one XAUTOCLAIM adopts, and where the next one starts. */
  datatype Sweep = Sweep(adopted: seq<EntryId>, cursor: EntryId)

  datatype Store = Store(
    stream: map<EntryId, Payload>,
    lastId: EntryId,
    lastDelivered: EntryId,
    pending: map<EntryId, Delivery>,
    claims: map<Mid, Claim>,
    dedup: map<Mid, real>,
    dlq: seq<Event>,
    now: real)
  {
    /** The delivery claim: a key whose time has run out reads as missing. */
    predicate Live(m: Mid) {
      m in claims && now < claims[m].expiry
    }

    function SetIfAbsent(m: Mid, ttl: real): Store {
      if Live(m) then this else this.(claims := claims[m := Claim(InFlight, now + ttl)])
    }

    function SetDone(m: Mid, ttl: real): Store {
      this.(claims := claims[m := Claim(Done, now + ttl)])
    }

    function Delete(m: Mid): Store {
      this.(claims := claims - {m})
    }

    /** The ingest claim on a message id, kept apart from the delivery claim. */
    predicate Seen(m: Mid) {
      m in dedup && now < dedup[m]
    }

    function SetSeen(m: Mid, ttl: real): Store {
      if Seen(m) then this else this.(dedup := dedup[m := now + ttl])
    }

    function XAdd(p: Payload): Store {
      this.(lastId := lastId + 1, stream := stream[lastId + 1 := p])
    }

    function XAddDlq(e: Event): Store {
      this.(dlq := dlq + [e])
    }

    function XAck(id: EntryId): Store {
      this.(pending := pending - {id})
    }

    function XDel(id: EntryId): Store {
      this.(stream := stream - {id})
    }

    /** `id` is the next entry XREADGROUP > would hand out. */
    predicate NextUndelivered(id: EntryId) {
      && id in stream && lastDelivered < id <= lastId
      && forall j | lastDelivered < j < id :: j !in stream
    }

    function Deliver(id: EntryId, consumer: string): Store {
      this.(lastDelivered := id, pending := pending[id := Delivery(consumer, now)])
    }

    /** `id` has been pending at least `minIdle` since its last delivery. */
    predicate Stale(id: EntryId, minIdle: real) {
      id in pending && id in stream && now - pending[id].at >= minIdle
    }

    function Adopt(id: EntryId, consumer: string): Store {
      this.(pending := pending[id := Delivery(consumer, now)])
    }

    /** XREADGROUP's walk over the stream from `at` upwards: the first `count` ids it meets. */
    function FirstIds(at: EntryId, count: nat): seq<EntryId>
      decreases lastId + 1 - at
    {
      if at > lastId || count == 0 then []
      else if at in stream then [at] + FirstIds(at + 1, count - 1)
      else FirstIds(at + 1, count)
    }

    function DeliverAll(ids: seq<EntryId>, consumer: string): Store {
      if ids == [] then this else DeliverAll(ids[..|ids| - 1], consumer).Deliver(ids[|ids| - 1], consumer)
    }

    function AdoptAll(ids: seq<EntryId>, consumer: string): Store {
      if ids == [] then this else AdoptAll(ids[..|ids| - 1], consumer).Adopt(ids[|ids| - 1], consumer)
    }

    /**
      XAUTOCLAIM's walk over the pending ids from `at` upwards: at most `attempts`
      of them are examined and at most `count` adopted; the cursor is the next
      pending id, or 0 at the end.
     */
    function Scan(minIdle: real, at: EntryId, attempts: nat, count: nat): Sweep
      decreases lastId + 1 - at
    {
      if at > lastId then Sweep([], 0)
      else if at !in pending then Scan(minIdle, at + 1, attempts, count)
      else if attempts == 0 || count == 0 then Sweep([], at)
      else if !Stale(at, minIdle) then Scan(minIdle, at + 1, attempts - 1, count)
      else
        var rest := Scan(minIdle, at + 1, attempts - 1, count - 1);
        Sweep([at] + rest.adopted, rest.cursor)
    }

    function Elapse(d: real): Store {
      this.(now := now + d)
    }

    /** Delivered ids exist, lie at or below the mark, and ids are not reused. */
    ghost predicate IdsOk() {
      && lastDelivered <= lastId
      && (forall id :: id in stream ==> 1 <= id <= lastId)
      && (forall id :: id in pending ==> id in stream && id <= lastDelivered)
    }
  }

  const EmptyStore := Store(map[], 0, 0, map[], map[], map[], [], 0.0)

  lemma {:induction false} AdoptAllFrame(st: Store, ids: seq<EntryId>, consumer: string, id: EntryId)
    ensures var after := st.AdoptAll(ids, consumer);
      && after == st.(pending := after.pending)
      && (id in ids || ((id in after.pending <==> id in st.pending)
                        && (id in st.pending ==> after.pending[id] == st.pending[id])))
  {
    if ids != [] {
      AdoptAllFrame(st, ids[..|ids| - 1], consumer, id);
    }
  }

  lemma {:induction false} DeliverAllFrame(st: Store, ids: seq<EntryId>, consumer: string)
    ensures var after := st.DeliverAll(ids, consumer);
      after == st.(pending := after.pending, lastDelivered := after.lastDelivered)
  {
    if ids != [] {
      DeliverAllFrame(st, ids[..|ids| - 1], consumer);
    }
  }

  /** Adopting one more changes its delivery alone. */
  lemma AdoptOneMore(st: Store, ids: seq<EntryId>, id: EntryId, consumer: string)
    ensures st.AdoptAll(ids + [id], consumer).pending
         == st.AdoptAll(ids, consumer).pending[id := Delivery(consumer, st.now)]
  {
    assert (ids + [id])[..|ids|] == ids;
    AdoptAllFrame(st, ids, consumer, id);
  }

  lemma AdoptAllLeaves(st: Store, ids: seq<EntryId>, consumer: string, id: EntryId)
    requires forall i :: 0 <= i < |ids| ==> ids[i] < id
    ensures var pending := st.AdoptAll(ids, consumer).pending;
      (id in pending <==> id in st.pending) && (id in st.pending ==> pending[id] == st.pending[id])
  {
    AdoptAllFrame(st, ids, consumer, id);
  }

  /** A scan that had adopted `ids` and goes on as `rest`. */
  function Resumed(ids: seq<EntryId>, rest: Sweep): Sweep {
    Sweep(ids + rest.adopted, rest.cursor)
  }

  /** One id of the walk: not pending, still fresh, or adopted. */
  lemma ScanNext(st: Store, minIdle: real, ids: seq<EntryId>, at: EntryId, attempts: nat, count: nat)
    requires at <= st.lastId && (at in st.pending ==> attempts > 0 && count > 0)
    ensures Resumed(ids, st.Scan(minIdle, at, attempts, count)) ==
      if at !in st.pending then Resumed(ids, st.Scan(minIdle, at + 1, attempts, count))
      else if !st.Stale(at, minIdle) then Resumed(ids, st.Scan(minIdle, at + 1, attempts - 1, count))
      else Resumed(ids + [at], st.Scan(minIdle, at + 1, attempts - 1, count - 1))
  {
  }

  /** Where the walk stops: past the last id, or at a pending one with nothing left to spend. */
  lemma ScanEnds(st: Store, minIdle: real, ids: seq<EntryId>, at: EntryId, attempts: nat, count: nat)
    requires at > st.lastId || (at in st.pending && (attempts == 0 || count == 0))
    ensures Resumed(ids, st.Scan(minIdle, at, attempts, count)) == Sweep(ids, if at <= st.lastId then at else 0)
  {
  }

  /** An entry as XREADGROUP and XAUTOCLAIM return it. */
  datatype Raw = Raw(id: EntryId, payload: Payload)

  function RawOf(st: Store, ids: seq<EntryId>): seq<Raw> {
    seq(|ids|, i requires 0 <= i < |ids| => Raw(ids[i], if ids[i] in st.stream then st.stream[ids[i]] else NoField))
  }

  datatype Reply = Nil | Text(value: ClaimValue)

  /** What SET .. NX EX answers; the server refuses an expiry that is not positive. */
  datatype SetReply = Newly | AlreadyThere | InvalidExpiry

  /** The commands a worker sends between batches. */
  datatype Command = AutoClaim | ReadGroup | Length | DlqLength | PendingSummary

  datatype Call = Ran(command: Command) | Broke(command: Command)

  /** What can be seen of them from outside: each as it is sent, or as it raised instead. */
  class Monitor {
    var calls: seq<Call>

    constructor ()
      ensures calls == []
    {
      calls := [];
    }

    method Note(call: Call)
      modifies this
      ensures calls == old(calls) + [call]
    {
      calls := calls + [call];
    }
  }

  class Redis {
    const monitor: Monitor
    var stream: map<EntryId, Payload>
    var lastId: EntryId
    var lastDelivered: EntryId
    var pending: map<EntryId, Delivery>
    var claims: map<Mid, Claim>
    var dedup: map<Mid, real>
    var dlq: seq<Event>
    var now: real

    function View(): Store
      reads this
    {
      Store(stream, lastId, lastDelivered, pending, claims, dedup, dlq, now)
    }

    constructor ()
      ensures View() == EmptyStore && fresh(monitor) && monitor.calls == []
    {
      monitor := new Monitor();
      stream, lastId, lastDelivered, pending, claims, dedup, dlq, now := map[], 0, 0, map[], map[], map[], [], 0.0;
    }

    /** Whatever other clients and the clock did meanwhile. */
    method Load(st: Store)
      modifies this
      ensures View() == st
    {
      stream, lastId, lastDelivered, pending := st.stream, st.lastId, st.lastDelivered, st.pending;
      claims, dedup, dlq, now := st.claims, st.dedup, st.dlq, st.now;
    }

    /** SET key inflight NX EX ttl. */
    method SetClaim(m: Mid, ttl: real) returns (reply: SetReply)
      modifies this
      ensures View() == if ttl > 0.0 then old(View()).SetIfAbsent(m, ttl) else old(View())
      ensures reply.InvalidExpiry? <==> ttl <= 0.0
      ensures reply.Newly? <==> ttl > 0.0 && !old(View()).Live(m)
    {
      if ttl <= 0.0 {
        return InvalidExpiry;
      }
      if m in claims && now < claims[m].expiry {
        return AlreadyThere;
      }
      claims := claims[m := Claim(InFlight, now + ttl)];
      return Newly;
    }

    /** GET key. */
    method GetClaim(m: Mid) returns (reply: Reply)
      ensures View().Live(m) ==> reply == Text(View().claims[m].value)
      ensures !View().Live(m) ==> reply == Nil
    {
      if m in claims && now < claims[m].expiry {
        reply := Text(claims[m].value);
      } else {
        reply := Nil;
      }
    }

    /** SET key done EX ttl: no condition on the key. */
    method SetDone(m: Mid, ttl: real) returns (accepted: bool)
      modifies this
      ensures accepted <==> ttl > 0.0
      ensures View() == if accepted then old(View()).SetDone(m, ttl) else old(View())
    {
      accepted := ttl > 0.0;
      if accepted {
        claims := claims[m := Claim(Done, now + ttl)];
      }
    }

    /** DEL key: no condition. */
    method DeleteClaim(m: Mid)
      modifies this
      ensures View() == old(View()).Delete(m)
    {
      claims := claims - {m};
    }

    /** SET dedup-key 1 NX EX ttl. */
    method SetSeen(m: Mid, ttl: real) returns (reply: SetReply)
      modifies this
      ensures View() == if ttl > 0.0 then old(View()).SetSeen(m, ttl) else old(View())
      ensures reply.InvalidExpiry? <==> ttl <= 0.0
      ensures reply.Newly? <==> ttl > 0.0 && !old(View()).Seen(m)
    {
      if ttl <= 0.0 {
        return InvalidExpiry;
      }
      if m in dedup && now < dedup[m] {
        return AlreadyThere;
      }
      dedup := dedup[m := now + ttl];
      return Newly;
    }

    method XAdd(p: Payload) returns (id: EntryId)
      modifies this
      ensures View() == old(View()).XAdd(p)
      ensures id == lastId && (old(View()).IdsOk() ==> id !in old(stream))
    {
      lastId := lastId + 1;
      stream := stream[lastId := p];
      id := lastId;
    }

    method XAddDlq(e: Event)
      modifies this
      ensures View() == old(View()).XAddDlq(e)
    {
      dlq := dlq + [e];
    }

    method XAck(id: EntryId)
      modifies this
      ensures View() == old(View()).XAck(id)
    {
      pending := pending - {id};
    }

    method XDel(id: EntryId)
      modifies this
      ensures View() == old(View()).XDel(id)
    {
      stream := stream - {id};
    }

    /** XREADGROUP >: hand the next undelivered entries to `consumer`. */
    method XReadGroup(consumer: string, count: nat) returns (ids: seq<EntryId>)
      modifies this, monitor
      ensures monitor.calls == old(monitor.calls) + [Ran(ReadGroup)]
      ensures ids == old(View()).FirstIds(old(lastDelivered) + 1, count)
      ensures View() == old(View()).DeliverAll(ids, consumer)
    {
      monitor.Note(Ran(ReadGroup));
      ids := [];
      var at: nat, left: nat := lastDelivered + 1, count;
      ghost var before := View();
      while at <= lastId && left > 0
        invariant View() == before.DeliverAll(ids, consumer)
        invariant lastId == before.lastId && stream == before.stream
        invariant before.FirstIds(before.lastDelivered + 1, count) == ids + before.FirstIds(at, left)
        modifies this
        decreases lastId + 1 - at
      {
        if at in stream {
          assert (ids + [at])[..|ids|] == ids;
          ids := ids + [at];
          pending := pending[at := Delivery(consumer, now)];
          lastDelivered := at;
          left := left - 1;
        }
        at := at + 1;
      }
    }

    /** XAUTOCLAIM: adopt stale entries from `start` on, examining at most ten ids for each one wanted. */
    method XAutoClaim(consumer: string, minIdle: real, start: EntryId, count: nat)
      returns (cursor: EntryId, ids: seq<EntryId>)
      requires forall id :: id in pending ==> id in stream
      modifies this, monitor
      ensures monitor.calls == old(monitor.calls) + [Ran(AutoClaim)]
      ensures Sweep(ids, cursor) == old(View()).Scan(minIdle, start, 10 * count, count)
      ensures View() == old(View()).AdoptAll(ids, consumer)
    {
      monitor.Note(Ran(AutoClaim));
      ids := [];
      var at: nat, attempts: nat, left: nat := start, 10 * count, count;
      var list := pending;
      ghost var before := View();
      while at <= lastId && !(at in list && (attempts == 0 || left == 0))
        invariant list == before.AdoptAll(ids, consumer).pending
        invariant forall i :: 0 <= i < |ids| ==> ids[i] < at
        invariant before.Scan(minIdle, start, 10 * count, count)
               == Resumed(ids, before.Scan(minIdle, at, attempts, left))
        modifies {}
        decreases lastId + 1 - at
      {
        AdoptAllLeaves(before, ids, consumer, at);
        ScanNext(before, minIdle, ids, at, attempts, left);
        if at in list {
          attempts := attempts - 1;
          if now - list[at].at >= minIdle {
            AdoptOneMore(before, ids, at, consumer);
            ids := ids + [at];
            list := list[at := Delivery(consumer, now)];
            left := left - 1;
          }
        }
        at := at + 1;
      }
      AdoptAllLeaves(before, ids, consumer, at);
      AdoptAllFrame(before, ids, consumer, at);
      ScanEnds(before, minIdle, ids, at, attempts, left);
      pending := list;
      cursor := if at <= lastId then at else 0;
    }
  }
}
