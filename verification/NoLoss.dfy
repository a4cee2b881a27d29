/**
  At-least-once delivery, with no premise on timing: any number of workers,
  deaths at any point, claims lapsing at any time.
 */
module NoLoss {
  import opened RedisStore
  import opened Protocol
  import opened Invariants

  /** Redis will still hand the entry to somebody. */
  predicate Recoverable(st: Store, id: EntryId) {
    id in st.stream && (id > st.lastDelivered || id in st.pending)
  }

  /** A live handler on `id` has re-published it and only has to ack it. */
  ghost predicate RetiringEntry(s: State, id: EntryId) {
    exists h :: h in s.handlers && s.handlers[h].entry == id && s.handlers[h].Retiring()
  }

  /** An entry that still stands for the message `m`. */
  ghost predicate LiveCopy(s: State, m: Mid, id: EntryId) {
    && Recoverable(s.store, id)
    && s.store.stream[id].Json?
    && s.store.stream[id].event.mid == m
    && !RetiringEntry(s, id)
  }

  ghost predicate Safe(s: State, m: Mid) {
    || s.hist.confirmed[m] > 0
    || InDlq(s.store.dlq, m)
    || exists id :: LiveCopy(s, m, id)
  }

  ghost predicate NonePublishedLost(s: State) {
    forall m :: m in s.hist.published ==> Safe(s, m)
  }

  lemma GoKeepsSafe(cfg: Cfg, s: State, h: Hid, m: Mid)
    requires Inv(cfg, s) && h in s.handlers && Safe(s, m)
    ensures Safe(GoStep(cfg, s, h), m)
  {
    var s' := GoStep(cfg, s, h);
    var hd := s.handlers[h];
    DlqGrows(s.store.dlq, hd.event);
    if s.hist.confirmed[m] > 0 || InDlq(s.store.dlq, m) { return; }
    var id :| LiveCopy(s, m, id);
    if hd.entry != id {
      assert LiveCopy(s', m, id);
    } else {
      assert HandlerOk(s.store, hd) && MarkerOk(s.hist.confirmed, s.store.dlq, hd);
      OwnerKeepsSafe(cfg, s, h, m);
    }
  }

  /** The step of a handler on the very copy that keeps `m` safe. */
  lemma OwnerKeepsSafe(cfg: Cfg, s: State, h: Hid, m: Mid)
    requires Inv(cfg, s) && h in s.handlers
    requires LiveCopy(s, m, s.handlers[h].entry)
    requires s.hist.confirmed[m] == 0 && !InDlq(s.store.dlq, m)
    ensures Safe(GoStep(cfg, s, h), m)
  {
    var s' := GoStep(cfg, s, h);
    var hd := s.handlers[h];
    assert HandlerOk(s.store, hd) && MarkerOk(s.hist.confirmed, s.store.dlq, hd);
    assert hd.event.mid == m && hd.entry in s.store.pending;
    assert !hd.Retiring();
    if hd.pc.Requeue? {
      var replacement := s.store.lastId + 1;
      assert forall k :: k in s.handlers ==> s.handlers[k].entry <= s.store.lastDelivered;
      assert LiveCopy(s', m, replacement);
    } else if !hd.pc.XAck? && !hd.pc.XDel? {
      assert LiveCopy(s', m, hd.entry);
    }
  }

  lemma OthersKeepCopy(cfg: Cfg, s: State, a: Action, s': State, m: Mid, id: EntryId)
    requires s.store.IdsOk() && OtherStep(cfg, s, a, s') && LiveCopy(s, m, id)
    ensures LiveCopy(s', m, id)
  {
    forall k | k in s'.handlers && s'.handlers[k].Retiring() ensures s'.handlers[k].entry != id {
      assert Lineage(s, a, s', k);
    }
  }

  lemma OthersKeepSafe(cfg: Cfg, s: State, a: Action, s': State, m: Mid)
    requires s.store.IdsOk() && OtherStep(cfg, s, a, s') && Safe(s, m)
    requires s.hist.confirmed[m] <= s'.hist.confirmed[m]
    ensures Safe(s', m)
  {
    if s.hist.confirmed[m] == 0 && !InDlq(s.store.dlq, m) {
      var id :| LiveCopy(s, m, id);
      OthersKeepCopy(cfg, s, a, s', m, id);
    }
  }

  lemma PublishMakesSafe(cfg: Cfg, s: State, m: Mid, body: string)
    requires Inv(cfg, s)
    ensures Safe(PublishStep(s, m, body), m)
  {
    assert forall h :: h in s.handlers ==> HandlerOk(s.store, s.handlers[h]);
    assert LiveCopy(PublishStep(s, m, body), m, s.store.lastId + 1);
  }

  lemma OnlyPublishPublishes(cfg: Cfg, s: State, a: Action, m: Mid)
    requires m !in s.hist.published && m in Step(cfg, s, a).hist.published
    ensures a.Publish? && a.mid == m
  {
  }

  lemma StepKeepsSafe(cfg: Cfg, s: State, a: Action, m: Mid)
    requires Inv(cfg, s) && Enabled(cfg, s, a) && Safe(s, m)
    ensures Safe(Step(cfg, s, a), m)
  {
    if a.Go? {
      GoKeepsSafe(cfg, s, a.h, m);
    } else {
      OthersOutline(cfg, s, a);
      OthersKeepSafe(cfg, s, a, Step(cfg, s, a), m);
    }
  }

  /**
    No loss. In every reachable state each published message id has an entry that
    Redis will still deliver and that no live handler has already replaced, or is
    in the dead-letter stream, or dispatch has returned True for it.
   */
  lemma {:induction false} NothingIsLost(cfg: Cfg, actions: seq<Action>)
    ensures NonePublishedLost(Run(cfg, Init, actions))
  {
    if actions == [] { return; }
    var before, a := actions[..|actions| - 1], actions[|actions| - 1];
    var s := Run(cfg, Init, before);
    NothingIsLost(cfg, before);
    Reachable(cfg, before);
    if !Enabled(cfg, s, a) { return; }
    var s' := Step(cfg, s, a);
    forall m | m in s'.hist.published ensures Safe(s', m) {
      if m !in s.hist.published {
        OnlyPublishPublishes(cfg, s, a, m);
        PublishMakesSafe(cfg, s, m, a.body);
      } else {
        StepKeepsSafe(cfg, s, a, m);
      }
    }
  }
}
