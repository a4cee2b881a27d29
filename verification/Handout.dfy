/**
  Reading and reclaiming a batch (app/queue.py:68-134): one XREADGROUP or
  XAUTOCLAIM is a run of single deliveries or adoptions, each decodable entry
  gets one handler, and the rest is skipped without stopping anything.
 */
module Handout {
  import opened RedisStore
  import opened Protocol
  import opened Invariants
  import opened Reclaim

  /** A decoded entry: (stream entry id, event). */
  datatype Entry = Entry(id: EntryId, event: Event)

  function Decoded(raws: seq<Raw>): seq<Entry> {
    if raws == [] then []
    else
      var raw := raws[|raws| - 1];
      Decoded(raws[..|raws| - 1]) + if raw.payload.Json? then [Entry(raw.id, raw.payload.event)] else []
  }

  /** _decode, and the same loop in reclaim_stale. */
  method Decode(raws: seq<Raw>) returns (out: seq<Entry>)
    ensures out == Decoded(raws)
  {
    out := [];
    for i := 0 to |raws|
      invariant out == Decoded(raws[..i])
    {
      assert raws[..i + 1][..i] == raws[..i];
      match raws[i].payload
      case NoField => continue;
      case BadJson => continue;
      case Json(event) => out := out + [Entry(raws[i].id, event)];
    }
    assert raws[..|raws|] == raws;
  }

  /** Exactly the decodable entries come out, in order and none twice. */
  lemma {:induction false} DecodedKeepsTheReadable(raws: seq<Raw>, i: nat)
    requires i < |raws|
    ensures |Decoded(raws)| <= |raws|
    ensures raws[i].payload.Json? ==> Entry(raws[i].id, raws[i].payload.event) in Decoded(raws)
    ensures forall e :: e in Decoded(raws) ==> Raw(e.id, Json(e.event)) in raws
  {
    var n := |raws| - 1;
    if n > 0 {
      DecodedKeepsTheReadable(raws[..n], if i < n then i else 0);
    }
    forall e | e in Decoded(raws) ensures Raw(e.id, Json(e.event)) in raws {
      if e in Decoded(raws[..n]) {
        assert Raw(e.id, Json(e.event)) in raws[..n];
      }
    }
  }

  // ----- a batch in the machine -----

  predicate AtStart(hd: Handler, e: Entry) {
    hd.entry == e.id && hd.event == e.event && hd.pc.SetNx?
  }

  /** The old handlers are untouched and each entry has a new one, numbered in order. */
  ghost predicate Spawned(s: State, s': State, entries: seq<Entry>) {
    && s'.nextHid == s.nextHid + |entries|
    && (forall h :: h in s.handlers ==> h in s'.handlers && s'.handlers[h] == s.handlers[h])
    && (forall h :: s.nextHid <= h < s'.nextHid ==> h in s'.handlers && AtStart(s'.handlers[h], entries[h - s.nextHid]))
  }

  lemma OneMoreSpawned(s: State, mid: State, st: Store, id: EntryId, raws: seq<Raw>, raw: Raw)
    requires Spawned(s, mid, Decoded(raws)) && HandlersOk(s) && HandlersOk(mid)
    requires id in mid.store.stream && raw == Raw(id, mid.store.stream[id])
    ensures Spawned(s, Spawn(mid, st, id), Decoded(raws + [raw]))
  {
    assert (raws + [raw])[..|raws|] == raws;
  }

  function Delivers(ids: seq<EntryId>, consumer: string): seq<Action> {
    seq(|ids|, i requires 0 <= i < |ids| => Deliver(ids[i], consumer))
  }

  predicate NextAfter(st: Store, from: EntryId, id: EntryId) {
    id in st.stream && from < id <= st.lastId && forall j | from < j < id :: j !in st.stream
  }

  /** Ids in stream order with nothing skipped, starting after `from`. */
  predicate Consecutive(st: Store, from: EntryId, ids: seq<EntryId>)
    decreases |ids|
  {
    ids == [] || (NextAfter(st, from, ids[0]) && Consecutive(st, ids[0], ids[1..]))
  }

  lemma {:induction false} ConsecutiveLast(st: Store, from: EntryId, ids: seq<EntryId>)
    requires Consecutive(st, from, ids) && ids != []
    ensures var n := |ids| - 1;
      Consecutive(st, from, ids[..n]) && NextAfter(st, if n == 0 then from else ids[n - 1], ids[n])
    decreases |ids|
  {
    if |ids| > 1 {
      ConsecutiveLast(st, ids[0], ids[1..]);
      assert ids[1..][..|ids| - 2] == ids[..|ids| - 1][1..];
    }
  }

  lemma {:induction false} FirstIdsAreNext(st: Store, from: EntryId, at: EntryId, count: nat)
    requires from < at && forall j | from < j < at :: j !in st.stream
    ensures Consecutive(st, from, st.FirstIds(at, count)) && |st.FirstIds(at, count)| <= count
    decreases st.lastId + 1 - at
  {
    if at > st.lastId || count == 0 {
    } else if at in st.stream {
      FirstIdsAreNext(st, at, at + 1, count - 1);
    } else {
      FirstIdsAreNext(st, from, at + 1, count);
    }
  }

  lemma RawOfNext(st: Store, ids: seq<EntryId>)
    requires ids != [] && ids[|ids| - 1] in st.stream
    ensures var n := |ids| - 1;
      RawOf(st, ids) == RawOf(st, ids[..n]) + [Raw(ids[n], st.stream[ids[n]])]
  {
  }

  lemma DeliverOneMore(cfg: Cfg, s: State, mid: State, ids: seq<EntryId>, id: EntryId, consumer: string)
    requires Inv(cfg, s) && Inv(cfg, mid) && mid.store == s.store.DeliverAll(ids, consumer)
    requires NextAfter(s.store, mid.store.lastDelivered, id)
    requires Spawned(s, mid, Decoded(RawOf(s.store, ids)))
    ensures var s' := Step(cfg, mid, Deliver(id, consumer));
      && Inv(cfg, s')
      && s'.store == mid.store.Deliver(id, consumer)
      && Spawned(s, s', Decoded(RawOf(s.store, ids) + [Raw(id, s.store.stream[id])]))
  {
    DeliverAllFrame(s.store, ids, consumer);
    assert mid.store.NextUndelivered(id);
    StepKeepsInv(cfg, mid, Deliver(id, consumer));
    OneMoreSpawned(s, mid, mid.store.Deliver(id, consumer), id, RawOf(s.store, ids), Raw(id, s.store.stream[id]));
  }

  /** XREADGROUP is a run of deliveries that spawns one handler per readable entry. */
  lemma {:induction false} ReadIsARun(cfg: Cfg, s: State, ids: seq<EntryId>, consumer: string)
    requires Inv(cfg, s) && Consecutive(s.store, s.store.lastDelivered, ids)
    ensures var s' := Run(cfg, s, Delivers(ids, consumer));
      && Inv(cfg, s')
      && s'.store == s.store.DeliverAll(ids, consumer)
      && (ids != [] ==> s'.store.lastDelivered == ids[|ids| - 1])
      && Spawned(s, s', Decoded(RawOf(s.store, ids)))
  {
    if ids == [] { return; }
    var n := |ids| - 1;
    assert Delivers(ids, consumer)[..n] == Delivers(ids[..n], consumer);
    ConsecutiveLast(s.store, s.store.lastDelivered, ids);
    ReadIsARun(cfg, s, ids[..n], consumer);
    RawOfNext(s.store, ids);
    DeliverOneMore(cfg, s, Run(cfg, s, Delivers(ids[..n], consumer)), ids[..n], ids[n], consumer);
  }

  /** XAUTOCLAIM is a run of adoptions that spawns one handler per readable entry. */
  lemma {:induction false} ReclaimIsARun(cfg: Cfg, s: State, ids: seq<EntryId>, consumer: string)
    requires Inv(cfg, s)
    requires forall i :: 0 <= i < |ids| ==> s.store.Stale(ids[i], cfg.minIdle)
    requires forall i, j :: 0 <= i < j < |ids| ==> ids[i] < ids[j]
    ensures var s' := Run(cfg, s, Adopts(ids, consumer));
      && Inv(cfg, s')
      && s'.store == s.store.AdoptAll(ids, consumer)
      && Spawned(s, s', Decoded(RawOf(s.store, ids)))
  {
    if ids == [] { return; }
    var n := |ids| - 1;
    var mid := Run(cfg, s, Adopts(ids[..n], consumer));
    assert Adopts(ids, consumer)[..n] == Adopts(ids[..n], consumer);
    ReclaimIsARun(cfg, s, ids[..n], consumer);
    AdoptAllFrame(s.store, ids[..n], consumer, ids[n]);
    assert mid.store.Stale(ids[n], cfg.minIdle);
    StepKeepsInv(cfg, mid, Adopt(ids[n], consumer));
    RawOfNext(s.store, ids);
    OneMoreSpawned(s, mid, mid.store.Adopt(ids[n], consumer), ids[n], RawOf(s.store, ids[..n]),
                   Raw(ids[n], s.store.stream[ids[n]]));
  }
}
