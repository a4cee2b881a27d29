/**
  What every step keeps, with no premise on timing: stream accounting, the range
  of retry_count, the soundness of delivery markers, and that nothing is lost.
 */
module Invariants {
  import opened RedisStore
  import opened Protocol

  // ----- the parts of the invariant -----

  /** A handler works on a delivered entry, and its event is that entry's (retried once if it failed). */
  ghost predicate HandlersOk(s: State) {
    forall h :: h in s.handlers ==> h < s.nextHid && HandlerOk(s.store, s.handlers[h])
  }

  ghost predicate HandlerOk(st: Store, hd: Handler) {
    && 1 <= hd.entry <= st.lastDelivered
    && (hd.pc.XDel? ==> hd.entry !in st.pending)
    && (hd.entry in st.stream ==>
          && st.stream[hd.entry].Json?
          && hd.event == Carried(st.stream[hd.entry].event, hd))
  }

  function Carried(e: Event, hd: Handler): Event {
    if hd.Failed() then e.(retry := e.retry + 1) else e
  }

  /** The event is a published one, retried a legal number of times. */
  ghost predicate EventOk(sources: set<(Mid, string)>, e: Event, low: nat, high: nat) {
    (e.mid, e.body) in sources && low <= e.retry <= high
  }

  ghost predicate StreamEventsOk(limit: nat, stream: map<EntryId, Payload>, sources: set<(Mid, string)>) {
    forall id :: id in stream && stream[id].Json? ==> EventOk(sources, stream[id].event, 0, limit)
  }

  ghost predicate DlqEventsOk(limit: nat, dlq: seq<Event>, sources: set<(Mid, string)>) {
    forall i :: 0 <= i < |dlq| ==> EventOk(sources, dlq[i], limit + 1, limit + 1)
  }

  ghost predicate HandlerEventOk(limit: nat, sources: set<(Mid, string)>, hd: Handler) {
    if !hd.Failed() then EventOk(sources, hd.event, 0, limit)
    else if hd.pc.Sleep? || hd.pc.Abandon? || hd.pc.Requeue? || hd.Retiring() then EventOk(sources, hd.event, 1, limit)
    else EventOk(sources, hd.event, limit + 1, limit + 1)
  }

  ghost predicate EventsOk(cfg: Cfg, s: State) {
    && StreamEventsOk(cfg.RetryLimit(), s.store.stream, s.hist.sources)
    && DlqEventsOk(cfg.RetryLimit(), s.store.dlq, s.hist.sources)
    && forall h :: h in s.handlers ==> HandlerEventOk(cfg.RetryLimit(), s.hist.sources, s.handlers[h])
  }

  ghost predicate InDlq(dlq: seq<Event>, m: Mid) {
    exists i :: 0 <= i < |dlq| && dlq[i].mid == m
  }

  /** A done marker, or a handler acting on one, means dispatch returned True. */
  ghost predicate MarkersOk(s: State) {
    && (forall m :: m in s.store.claims && s.store.claims[m].value.Done? ==> s.hist.confirmed[m] > 0)
    && (forall h :: h in s.handlers ==> MarkerOk(s.hist.confirmed, s.store.dlq, s.handlers[h]))
  }

  ghost predicate MarkerOk(confirmed: multiset<Mid>, dlq: seq<Event>, hd: Handler) {
    && (hd.pc.Complete? || ((hd.pc.XAck? || hd.pc.XDel?) && (hd.pc.why.Sent? || hd.pc.why.AlreadySent?)) ==>
          confirmed[hd.event.mid] > 0)
    && (hd.pc.ParkAbandon? || ((hd.pc.XAck? || hd.pc.XDel?) && hd.pc.why.Parked?) ==> InDlq(dlq, hd.event.mid))
  }

  /** A delivered entry leaves the pending list only by an XACK. */
  ghost predicate AckedOk(s: State) {
    && (forall id :: id in s.hist.acked ==> id <= s.store.lastDelivered && id !in s.store.pending)
    && (forall id :: id in s.store.stream && id <= s.store.lastDelivered ==>
          id in s.store.pending || id in s.hist.acked)
  }

  ghost predicate Inv(cfg: Cfg, s: State) {
    && s.store.IdsOk()
    && HandlersOk(s)
    && EventsOk(cfg, s)
    && MarkersOk(s)
    && AckedOk(s)
  }

  // ----- preservation -----

  lemma EffectKeepsIds(cfg: Cfg, st: Store, hd: Handler)
    requires st.IdsOk() && HandlerOk(st, hd)
    ensures Effect(cfg, st, hd).IdsOk()
  {
  }

  lemma EffectKeepsOthers(cfg: Cfg, st: Store, hd: Handler, other: Handler)
    requires st.IdsOk() && HandlerOk(st, other)
    ensures HandlerOk(Effect(cfg, st, hd), other)
  {
  }

  lemma GoKeepsOwn(cfg: Cfg, st: Store, hd: Handler)
    requires st.IdsOk() && HandlerOk(st, hd) && After(st, hd).Continue?
    ensures HandlerOk(Effect(cfg, st, hd), Move(cfg, st, hd, After(st, hd).pc))
  {
  }

  lemma GoKeepsHandlers(cfg: Cfg, s: State, h: Hid)
    requires s.store.IdsOk() && HandlersOk(s) && h in s.handlers
    ensures HandlersOk(GoStep(cfg, s, h))
  {
    var s' := GoStep(cfg, s, h);
    var hd := s.handlers[h];
    forall k | k in s'.handlers ensures k < s'.nextHid && HandlerOk(s'.store, s'.handlers[k]) {
      if k == h {
        GoKeepsOwn(cfg, s.store, hd);
      } else {
        EffectKeepsOthers(cfg, s.store, hd, s.handlers[k]);
      }
    }
  }

  lemma GoKeepsEvents(cfg: Cfg, s: State, h: Hid)
    requires EventsOk(cfg, s) && h in s.handlers
    ensures EventsOk(cfg, GoStep(cfg, s, h))
  {
    var s' := GoStep(cfg, s, h);
    var hd := s.handlers[h];
    assert HandlerEventOk(cfg.RetryLimit(), s.hist.sources, hd);
    assert s'.hist.sources == s.hist.sources;
  }

  lemma GoKeepsOwnMarker(cfg: Cfg, st: Store, hd: Handler, confirmed: multiset<Mid>)
    requires MarkerOk(confirmed, st.dlq, hd) && After(st, hd).Continue?
    requires forall m :: m in st.claims && st.claims[m].value.Done? ==> confirmed[m] > 0
    ensures MarkerOk(confirmed, Effect(cfg, st, hd).dlq, Move(cfg, st, hd, After(st, hd).pc))
  {
    DlqGrows(st.dlq, hd.event);
  }

  lemma GoKeepsMarkers(cfg: Cfg, s: State, h: Hid)
    requires MarkersOk(s) && h in s.handlers
    ensures MarkersOk(GoStep(cfg, s, h))
  {
    var s' := GoStep(cfg, s, h);
    var hd := s.handlers[h];
    assert MarkerOk(s.hist.confirmed, s.store.dlq, hd);
    forall k | k in s'.handlers ensures MarkerOk(s.hist.confirmed, s'.store.dlq, s'.handlers[k]) {
      if k == h {
        GoKeepsOwnMarker(cfg, s.store, hd, s.hist.confirmed);
      } else {
        DlqGrows(s.store.dlq, hd.event);
      }
    }
  }

  lemma DlqGrows(dlq: seq<Event>, e: Event)
    ensures forall m :: InDlq(dlq + [e], m) <==> InDlq(dlq, m) || m == e.mid
  {
    assert (dlq + [e])[|dlq|] == e;
    forall m | InDlq(dlq, m) ensures InDlq(dlq + [e], m) {
      var i :| 0 <= i < |dlq| && dlq[i].mid == m;
      assert (dlq + [e])[i].mid == m;
    }
  }

  lemma GoKeepsAcked(cfg: Cfg, s: State, h: Hid)
    requires AckedOk(s) && s.store.IdsOk() && h in s.handlers && HandlerOk(s.store, s.handlers[h])
    ensures AckedOk(GoStep(cfg, s, h))
  {
  }

  lemma AnswerKeepsInv(cfg: Cfg, s: State, h: Hid, ok: bool)
    requires Inv(cfg, s) && h in s.handlers && s.handlers[h].pc.Posting?
    ensures Inv(cfg, AnswerStep(cfg, s, h, ok))
  {
    var hd := s.handlers[h];
    var s' := AnswerStep(cfg, s, h, ok);
    assert HandlerOk(s.store, hd);
    assert HandlerEventOk(cfg.RetryLimit(), s.hist.sources, hd);
    assert HandlersOk(s');
    assert EventsOk(cfg, s');
    AnswerKeepsMarkers(cfg, s, h, ok);
  }

  lemma AnswerKeepsMarkers(cfg: Cfg, s: State, h: Hid, ok: bool)
    requires MarkersOk(s) && h in s.handlers && s.handlers[h].pc.Posting?
    ensures MarkersOk(AnswerStep(cfg, s, h, ok))
  {
    var s' := AnswerStep(cfg, s, h, ok);
    assert forall m :: s.hist.confirmed[m] <= s'.hist.confirmed[m];
    forall k | k in s'.handlers ensures MarkerOk(s'.hist.confirmed, s'.store.dlq, s'.handlers[k]) {
      assert MarkerOk(s.hist.confirmed, s.store.dlq, s.handlers[k]);
    }
  }

  lemma KillKeepsInv(cfg: Cfg, s: State, h: Hid)
    requires Inv(cfg, s) && h in s.handlers
    ensures Inv(cfg, KillStep(s, h))
  {
    var s' := KillStep(s, h);
    assert HandlersOk(s');
    assert EventsOk(cfg, s');
    assert MarkersOk(s');
  }

  /** A delivery or an adoption: only the pending list and the mark move. */
  ghost predicate Handout(before: Store, after: Store, id: EntryId, consumer: string) {
    && id in before.stream
    && 1 <= id <= after.lastDelivered
    && before.lastDelivered <= after.lastDelivered
    && after == before.(lastDelivered := after.lastDelivered,
                        pending := before.pending[id := Delivery(consumer, before.now)])
    && forall k :: k in before.stream && before.lastDelivered < k <= after.lastDelivered ==> k == id
  }

  lemma SpawnKeepsHandlers(s: State, st: Store, id: EntryId, c: string)
    requires HandlersOk(s) && Handout(s.store, st, id, c)
    requires forall h :: h in s.handlers && s.handlers[h].pc.XDel? ==> s.handlers[h].entry != id
    ensures HandlersOk(Spawn(s, st, id))
  {
    var s' := Spawn(s, st, id);
    forall h | h in s'.handlers ensures h < s'.nextHid && HandlerOk(st, s'.handlers[h]) {
      if h in s.handlers && h != s.nextHid {
        assert HandlerOk(s.store, s.handlers[h]);
      }
    }
  }

  lemma SpawnKeepsEvents(cfg: Cfg, s: State, st: Store, id: EntryId, c: string)
    requires EventsOk(cfg, s) && Handout(s.store, st, id, c)
    ensures EventsOk(cfg, Spawn(s, st, id))
  {
  }

  lemma SpawnKeepsMarkers(s: State, st: Store, id: EntryId, c: string)
    requires MarkersOk(s) && Handout(s.store, st, id, c)
    ensures MarkersOk(Spawn(s, st, id))
  {
  }

  lemma SpawnKeepsInv(cfg: Cfg, s: State, st: Store, id: EntryId, c: string)
    requires Inv(cfg, s) && Handout(s.store, st, id, c) && st.IdsOk()
    requires id !in s.hist.acked
    requires forall h :: h in s.handlers && s.handlers[h].pc.XDel? ==> s.handlers[h].entry != id
    ensures Inv(cfg, Spawn(s, st, id))
  {
    SpawnKeepsHandlers(s, st, id, c);
    SpawnKeepsEvents(cfg, s, st, id, c);
    SpawnKeepsMarkers(s, st, id, c);
  }

  lemma XAddKeepsInv(cfg: Cfg, s: State, p: Payload, hist: History)
    requires Inv(cfg, s)
    requires p.Json? ==> (p.event.mid, p.event.body) in hist.sources && p.event.retry == 0
    requires s.hist.sources <= hist.sources && hist.confirmed == s.hist.confirmed && hist.acked == s.hist.acked
    ensures Inv(cfg, s.(store := s.store.XAdd(p), hist := hist))
  {
    var s' := s.(store := s.store.XAdd(p), hist := hist);
    forall h | h in s.handlers
      ensures HandlerOk(s'.store, s.handlers[h]) && HandlerEventOk(cfg.RetryLimit(), hist.sources, s.handlers[h])
    {
      assert HandlerOk(s.store, s.handlers[h]);
      assert HandlerEventOk(cfg.RetryLimit(), s.hist.sources, s.handlers[h]);
    }
  }

  lemma TickKeepsInv(cfg: Cfg, s: State, d: real)
    requires Inv(cfg, s)
    ensures Inv(cfg, TickStep(s, d))
  {
    var s' := TickStep(s, d);
    forall h | h in s'.handlers
      ensures h < s'.nextHid && HandlerOk(s'.store, s'.handlers[h])
      ensures HandlerEventOk(cfg.RetryLimit(), s'.hist.sources, s'.handlers[h])
      ensures MarkerOk(s'.hist.confirmed, s'.store.dlq, s'.handlers[h])
    {
      assert HandlerOk(s.store, s.handlers[h]);
      assert HandlerEventOk(cfg.RetryLimit(), s.hist.sources, s.handlers[h]);
      assert MarkerOk(s.hist.confirmed, s.store.dlq, s.handlers[h]);
    }
  }

  lemma {:induction false} StepKeepsInv(cfg: Cfg, s: State, a: Action)
    requires Inv(cfg, s)
    ensures Inv(cfg, Step(cfg, s, a))
  {
    if !Enabled(cfg, s, a) { return; }
    match a
    case Publish(m, body) => XAddKeepsInv(cfg, s, Json(Event(m, 0, body)), PublishStep(s, m, body).hist);
    case PublishJunk(junk) => XAddKeepsInv(cfg, s, junk, s.hist);
    case Deliver(id, c) => SpawnKeepsInv(cfg, s, s.store.Deliver(id, c), id, c);
    case Adopt(id, c) => SpawnKeepsInv(cfg, s, s.store.Adopt(id, c), id, c);
    case Go(h) =>
      EffectKeepsIds(cfg, s.store, s.handlers[h]);
      GoKeepsHandlers(cfg, s, h);
      GoKeepsEvents(cfg, s, h);
      GoKeepsMarkers(cfg, s, h);
      GoKeepsAcked(cfg, s, h);
    case Answer(h, ok) => AnswerKeepsInv(cfg, s, h, ok);
    case Kill(h) => KillKeepsInv(cfg, s, h);
    case Tick(d) => TickKeepsInv(cfg, s, d);
  }

  lemma {:induction false} Reachable(cfg: Cfg, actions: seq<Action>)
    ensures Inv(cfg, Run(cfg, Init, actions))
  {
    if actions != [] {
      Reachable(cfg, actions[..|actions| - 1]);
      StepKeepsInv(cfg, Run(cfg, Init, actions[..|actions| - 1]), actions[|actions| - 1]);
    }
  }

  // ----- what the invariant gives -----

  function Undelivered(st: Store): set<EntryId> {
    set id | id in st.stream && id > st.lastDelivered
  }

  /** XACK has run and XDEL has not (or never will: the handler died between them). */
  function AckedNotDeleted(s: State): set<EntryId> {
    set id | id in s.store.stream && id in s.hist.acked
  }

  /**
    In every reachable state the pending ids are delivered stream ids, and XLEN
    counts each entry once: pending, never delivered, or acked but not deleted.
   */
  lemma {:induction false} StreamAccounting(cfg: Cfg, actions: seq<Action>)
    ensures var s := Run(cfg, Init, actions);
      && s.store.pending.Keys <= s.store.stream.Keys
      && (forall id :: id in s.store.pending ==> id <= s.store.lastDelivered)
      && |s.store.stream| == |s.store.pending| + |Undelivered(s.store)| + |AckedNotDeleted(s)|
  {
    Reachable(cfg, actions);
    var s := Run(cfg, Init, actions);
    var open := s.store.pending.Keys + Undelivered(s.store);
    assert s.store.stream.Keys == open + AckedNotDeleted(s);
    assert |s.store.stream.Keys| == |open| + |AckedNotDeleted(s)|;
    assert |open| == |s.store.pending.Keys| + |Undelivered(s.store)|;
  }

  /**
    In every reachable state each event in the stream or the dead-letter stream
    carries the id and content of a published one; in the stream it has failed
    at most RetryLimit times, in the dead-letter stream exactly once more.
   */
  lemma {:induction false} RetryRange(cfg: Cfg, actions: seq<Action>)
    ensures var s := Run(cfg, Init, actions);
      && (forall id :: id in s.store.stream && s.store.stream[id].Json? ==>
            EventOk(s.hist.sources, s.store.stream[id].event, 0, cfg.RetryLimit()))
      && (forall e :: e in s.store.dlq ==> EventOk(s.hist.sources, e, cfg.RetryLimit() + 1, cfg.RetryLimit() + 1))
  {
    Reachable(cfg, actions);
  }

  /** With MAX_RETRIES non-negative, dead letters carry MAX_RETRIES + 1; with it negative they do not. */
  lemma {:induction false} DeadLetterRetryCount(cfg: Cfg, actions: seq<Action>)
    ensures forall e :: e in Run(cfg, Init, actions).store.dlq ==>
      (e.retry == cfg.maxRetries + 1 <==> cfg.maxRetries >= 0)
  {
    RetryRange(cfg, actions);
  }
}
