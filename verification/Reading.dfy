/**
  Reading forward (app/queue.py:84-103): an entry nobody has been given yet stays
  in the stream, and each read brings the group nearer to it by a whole batch.
 */
module Reading {
  import opened RedisStore
  import opened Protocol
  import opened Invariants
  import opened Handout
  import opened Reclaim

  predicate NotYetRead(st: Store, e: EntryId) {
    e in st.stream && st.lastDelivered < e
  }

  /** How many undelivered entries there are up to `e`. */
  function Unread(st: Store, e: EntryId): nat {
    Ahead(st.stream, st.lastDelivered + 1, e)
  }

  /** The entry has been handed out, or `served` others before it have been. */
  predicate Served(from: Store, st: Store, e: EntryId, served: nat) {
    e <= st.lastDelivered || (e in st.stream && Unread(st, e) + served <= Unread(from, e))
  }

  ghost predicate AllServed(from: Store, st: Store, served: nat) {
    forall e :: NotYetRead(from, e) ==> Served(from, st, e, served)
  }

  // ----- anything may happen -----

  /** Undelivered entries stay, the mark only rises and new entries come last. */
  ghost predicate Onward(st: Store, st': Store) {
    && st.lastDelivered <= st'.lastDelivered && st.lastId <= st'.lastId
    && (forall id :: id <= st.lastId && id in st'.stream ==> id in st.stream)
    && (forall id :: NotYetRead(st, id) ==> id in st'.stream)
  }

  lemma StepIsOnward(cfg: Cfg, s: State, a: Action)
    requires Inv(cfg, s)
    ensures Onward(s.store, Step(cfg, s, a).store)
  {
    if !Enabled(cfg, s, a) { return; }
    if a.Go? {
      OwnOutline(cfg, s, a.h);
      assert HandlerOk(s.store, s.handlers[a.h]);
    } else {
      OthersOutline(cfg, s, a);
    }
  }

  lemma OnwardServes(from: Store, st: Store, st': Store, e: EntryId, served: nat)
    requires Served(from, st, e, served) && Onward(st, st') && e <= st.lastId
    ensures Served(from, st', e, served)
  {
    if e > st'.lastDelivered {
      AheadShrinks(st.stream, st'.stream, st'.lastDelivered + 1, e);
      AheadFewer(st.stream, st.lastDelivered + 1, st'.lastDelivered + 1, e);
    }
  }

  lemma {:induction false} RunServes(cfg: Cfg, from: Store, s: State, actions: seq<Action>, served: nat)
    requires Inv(cfg, s) && AllServed(from, s.store, served) && from.IdsOk() && from.lastId <= s.store.lastId
    ensures var s' := Run(cfg, s, actions);
      Inv(cfg, s') && AllServed(from, s'.store, served) && from.lastId <= s'.store.lastId
  {
    if actions != [] {
      var before, a := actions[..|actions| - 1], actions[|actions| - 1];
      var mid := Run(cfg, s, before);
      RunServes(cfg, from, s, before, served);
      StepKeepsInv(cfg, mid, a);
      StepIsOnward(cfg, mid, a);
      forall e | NotYetRead(from, e) ensures Served(from, Step(cfg, mid, a).store, e, served) {
        OnwardServes(from, mid.store, Step(cfg, mid, a).store, e, served);
      }
    }
  }

  // ----- a read -----

  lemma {:induction false} FirstIdsStart(st: Store, at: EntryId, count: nat)
    ensures forall i :: 0 <= i < |st.FirstIds(at, count)| ==> st.FirstIds(at, count)[i] >= at
    decreases st.lastId + 1 - at
  {
    if at > st.lastId || count == 0 {
    } else if at in st.stream {
      FirstIdsStart(st, at + 1, count - 1);
    } else {
      FirstIdsStart(st, at + 1, count);
    }
  }

  /** Where the walk got to. */
  function Past(ids: seq<EntryId>, at: EntryId): EntryId {
    if ids == [] then at else ids[|ids| - 1] + 1
  }

  /** A walk gets past the entry or hands out `count` of those up to it. */
  lemma {:induction false} FirstIdsAdvance(st: Store, at: EntryId, count: nat, e: EntryId)
    requires at <= e <= st.lastId && e in st.stream
    ensures var next := Past(st.FirstIds(at, count), at);
      next > e || (next >= at && Ahead(st.stream, next, e) + count == Ahead(st.stream, at, e))
    decreases e - at
  {
    if count == 0 {
    } else if at == e {
      FirstIdsStart(st, at + 1, count - 1);
    } else if at in st.stream {
      FirstIdsAdvance(st, at + 1, count - 1, e);
    } else {
      FirstIdsAdvance(st, at + 1, count, e);
    }
  }

  lemma WalkServes(from: Store, st: Store, st': Store, batch: nat, e: EntryId, served: nat)
    requires Served(from, st, e, served) && e <= st.lastId
    requires st'.stream == st.stream
    requires st'.lastDelivered + 1 == Past(st.FirstIds(st.lastDelivered + 1, batch), st.lastDelivered + 1)
    ensures Served(from, st', e, served + batch)
  {
    var at := st.lastDelivered + 1;
    FirstIdsStart(st, at, batch);
    if at <= e {
      FirstIdsAdvance(st, at, batch, e);
    }
  }

  lemma ReadMovesTheMark(cfg: Cfg, s: State, consumer: string, batch: nat)
    requires Inv(cfg, s)
    ensures var at := s.store.lastDelivered + 1;
      var ids := s.store.FirstIds(at, batch);
      var st' := Run(cfg, s, Delivers(ids, consumer)).store;
      st'.stream == s.store.stream && st'.lastId == s.store.lastId && st'.lastDelivered + 1 == Past(ids, at)
  {
    var at := s.store.lastDelivered + 1;
    var ids := s.store.FirstIds(at, batch);
    FirstIdsAreNext(s.store, at - 1, at, batch);
    ReadIsARun(cfg, s, ids, consumer);
    DeliverAllFrame(s.store, ids, consumer);
    assert ids == [] ==> s.store.DeliverAll(ids, consumer) == s.store;
  }

  lemma ReadServes(cfg: Cfg, from: Store, s: State, consumer: string, batch: nat, served: nat)
    requires Inv(cfg, s) && AllServed(from, s.store, served) && from.IdsOk() && from.lastId <= s.store.lastId
    ensures var s' := Run(cfg, s, Delivers(s.store.FirstIds(s.store.lastDelivered + 1, batch), consumer));
      AllServed(from, s'.store, served + batch) && from.lastId <= s'.store.lastId
  {
    var st' := Run(cfg, s, Delivers(s.store.FirstIds(s.store.lastDelivered + 1, batch), consumer)).store;
    ReadMovesTheMark(cfg, s, consumer, batch);
    forall e: EntryId | NotYetRead(from, e) ensures Served(from, st', e, served + batch) {
      WalkServes(from, s.store, st', batch, e, served);
    }
  }

  /** Every entry waiting at `from` with at most `served` up to it has been handed out. */
  ghost predicate WaitingOnesDelivered(from: Store, st: Store, served: nat) {
    forall e: EntryId :: NotYetRead(from, e) && Unread(from, e) <= served ==> e <= st.lastDelivered
  }

  lemma ServedAreDelivered(from: Store, st: Store, served: nat)
    requires AllServed(from, st, served)
    ensures WaitingOnesDelivered(from, st, served)
  {
    forall e: EntryId | NotYetRead(from, e) && Unread(from, e) <= served ensures e <= st.lastDelivered {
      assert Served(from, st, e, served);
      if e > st.lastDelivered {
        AheadCountsTheEntry(st.stream, st.lastDelivered + 1, e);
      }
    }
  }
}
