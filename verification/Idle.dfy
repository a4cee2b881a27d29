/**
  Under idle timing an entry has at most one live handler: reclaiming waits out
  anybody still working. What follows is which entries stand for a message and
  which of them have already used up a dispatch.
 */
module Idle {
  import opened RedisStore
  import opened Protocol
  import opened Invariants
  import opened NoLoss

  ghost predicate SoleHandlers(s: State) {
    forall h, k :: h in s.handlers && k in s.handlers && s.handlers[h].entry == s.handlers[k].entry ==> h == k
  }

  /** Until its XACK, a handler's entry is pending since the delivery that started it. */
  ghost predicate Attended(s: State) {
    forall h :: h in s.handlers && !s.handlers[h].pc.XDel? ==> AttendedBy(s.store, s.handlers[h])
  }

  predicate AttendedBy(st: Store, hd: Handler) {
    hd.entry in st.pending && st.pending[hd.entry].at == hd.startAt
  }

  ghost predicate IdleOk(s: State) {
    SoleHandlers(s) && Attended(s)
  }

  ghost predicate NobodyOn(s: State, id: EntryId) {
    forall h :: h in s.handlers ==> s.handlers[h].entry != id
  }

  lemma HandedOutIsFree(cfg: Cfg, s: State, a: Action)
    requires Inv(cfg, s) && IdleOk(s) && IdleTimely(cfg, s) && Enabled(cfg, s, a)
    requires a.Deliver? || a.Adopt?
    ensures NobodyOn(s, a.id)
  {
    forall h | h in s.handlers ensures s.handlers[h].entry != a.id {
      assert HandlerOk(s.store, s.handlers[h]);
      assert !s.handlers[h].pc.XDel? ==> AttendedBy(s.store, s.handlers[h]);
    }
  }

  lemma GoKeepsIdle(cfg: Cfg, s: State, h: Hid, s': State)
    requires IdleOk(s) && h in s.handlers && OwnStep(cfg, s, h, s')
    ensures IdleOk(s')
  {
    forall k | k in s'.handlers && !s'.handlers[k].pc.XDel? ensures AttendedBy(s'.store, s'.handlers[k]) {
      assert !s.handlers[k].pc.XDel?;
      assert AttendedBy(s.store, s.handlers[k]);
    }
  }

  lemma OthersKeepIdle(cfg: Cfg, s: State, a: Action, s': State)
    requires IdleOk(s) && OtherStep(cfg, s, a, s')
    requires a.Deliver? || a.Adopt? ==> NobodyOn(s, a.id)
    ensures IdleOk(s')
  {
    assert forall k :: k in s'.handlers ==> Lineage(s, a, s', k);
    forall k | k in s'.handlers && !s'.handlers[k].pc.XDel? ensures AttendedBy(s'.store, s'.handlers[k]) {
      if k in s.handlers {
        assert AttendedBy(s.store, s.handlers[k]);
      }
    }
  }

  lemma {:induction false} IdleHolds(cfg: Cfg, actions: seq<Action>)
    requires IdleTimelyRun(cfg, actions)
    ensures IdleOk(Run(cfg, Init, actions))
  {
    if actions == [] { return; }
    var before, a := actions[..|actions| - 1], actions[|actions| - 1];
    var s := Run(cfg, Init, before);
    IdleHolds(cfg, before);
    Reachable(cfg, before);
    StepKeepsIdle(cfg, s, a);
  }

  lemma StepKeepsIdle(cfg: Cfg, s: State, a: Action)
    requires Inv(cfg, s) && IdleOk(s) && IdleTimely(cfg, s)
    ensures IdleOk(Step(cfg, s, a))
  {
    if !Enabled(cfg, s, a) { return; }
    if a.Go? {
      OwnOutline(cfg, s, a.h);
      GoKeepsIdle(cfg, s, a.h, GoStep(cfg, s, a.h));
    } else {
      if a.Deliver? || a.Adopt? {
        HandedOutIsFree(cfg, s, a);
      }
      OthersOutline(cfg, s, a);
      OthersKeepIdle(cfg, s, a, Step(cfg, s, a));
    }
  }

  // ----- which entries are live copies, and which are spent -----

  /** A live handler on the entry has entered dispatch. */
  ghost predicate SpentEntry(s: State, id: EntryId) {
    exists h :: h in s.handlers && s.handlers[h].entry == id && s.handlers[h].Spent()
  }

  lemma CopyWithHandler(cfg: Cfg, s: State, h: Hid, m: Mid)
    requires Inv(cfg, s) && IdleOk(s) && h in s.handlers
    ensures var hd := s.handlers[h];
      && (LiveCopy(s, m, hd.entry) <==> !hd.pc.XDel? && !hd.Retiring() && hd.event.mid == m)
      && (SpentEntry(s, hd.entry) <==> hd.Spent())
      && (hd.pc.XDel? || (hd.entry in s.store.stream && s.store.stream[hd.entry].Json?
                          && hd.event == Carried(s.store.stream[hd.entry].event, hd)))
  {
    var hd := s.handlers[h];
    assert HandlerOk(s.store, hd);
    assert !hd.pc.XDel? ==> AttendedBy(s.store, hd);
  }

  lemma CopyWithoutHandler(s: State, id: EntryId, m: Mid)
    requires NobodyOn(s, id)
    ensures LiveCopy(s, m, id) <==>
      Recoverable(s.store, id) && s.store.stream[id].Json? && s.store.stream[id].event.mid == m
    ensures !SpentEntry(s, id)
  {
  }

  /** The entry whose standing a step may change; 0 for none. */
  ghost function Touched(s: State, a: Action): EntryId {
    if a.Deliver? || a.Adopt? then a.id
    else if (a.Go? || a.Answer? || a.Kill?) && a.h in s.handlers then s.handlers[a.h].entry
    else 0
  }

  /** Every other existing entry keeps its standing. */
  lemma GoTouchesOne(cfg: Cfg, s: State, h: Hid, s': State, m: Mid, id: EntryId)
    requires h in s.handlers && OwnStep(cfg, s, h, s')
    requires id != s.handlers[h].entry && id <= s.store.lastId
    ensures LiveCopy(s', m, id) <==> LiveCopy(s, m, id)
    ensures SpentEntry(s', id) <==> SpentEntry(s, id)
    ensures NobodyOn(s', id) <==> NobodyOn(s, id)
    ensures LiveCopy(s, m, id) ==> s'.store.stream[id] == s.store.stream[id]
  {
    assert id in s'.store.stream <==> id in s.store.stream;
    assert id in s.store.stream ==> s'.store.stream[id] == s.store.stream[id];
    assert id in s'.store.pending <==> id in s.store.pending;
    assert forall k :: k in s'.handlers && s'.handlers[k].entry == id ==>
      k in s.handlers && s'.handlers[k] == s.handlers[k];
  }

  lemma OthersTouchOne(cfg: Cfg, s: State, a: Action, s': State, m: Mid, id: EntryId)
    requires OtherStep(cfg, s, a, s')
    requires id != Touched(s, a) && id <= s.store.lastId
    ensures LiveCopy(s', m, id) <==> LiveCopy(s, m, id)
    ensures SpentEntry(s', id) <==> SpentEntry(s, id)
    ensures LiveCopy(s, m, id) ==> s'.store.stream[id] == s.store.stream[id]
  {
    assert id in s'.store.stream <==> id in s.store.stream;
    assert id in s.store.stream ==> s'.store.stream[id] == s.store.stream[id];
    assert id in s.store.stream ==> (Recoverable(s'.store, id) <==> Recoverable(s.store, id));
    forall k | k in s.handlers && s.handlers[k].entry == id
      ensures k in s'.handlers && s'.handlers[k].entry == id && s'.handlers[k].pc == s.handlers[k].pc
    {
      assert Lineage(s, a, s', k);
    }
    forall k | k in s'.handlers && s'.handlers[k].entry == id
      ensures k in s.handlers && s.handlers[k].entry == id && s'.handlers[k].pc == s.handlers[k].pc
    {
      assert Lineage(s, a, s', k);
    }
  }
}
