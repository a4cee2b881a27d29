/**
  Under idle timing, and for an id that is published at most once and on
  which no handler dies, the whole system behaves as one copy of the message
  moving between waiting and posting until it is delivered or exhausted.
  Handlers of other ids may die at any time.
 */
module OneCopy {
  import opened RedisStore
  import opened Protocol
  import opened Invariants
  import opened NoLoss
  import opened Idle
  import opened Copies

  // ----- the one-copy machine -----

  datatype Copy =
    | Absent
    | Waiting(fails: nat)
    | InPost(fails: nat)
    | Delivered(fails: nat)
    | Exhausted(fails: nat)

  datatype Label = Silent | Submitted | Posted | Accepted | Refused

  datatype Option<T> = None | Some(value: T)

  /** The machine's transitions; None for a label it does not accept. */
  function Advance(maxRetries: int, c: Copy, l: Label): Option<Copy> {
    match (c, l)
    case (_, Silent) => Some(c)
    case (Absent, Submitted) => Some(Waiting(0))
    case (Waiting(k), Posted) => Some(InPost(k))
    case (InPost(k), Accepted) => Some(Delivered(k))
    case (InPost(k), Refused) => Some(if k + 1 > maxRetries then Exhausted(k + 1) else Waiting(k + 1))
    case _ => None
  }

  /** What a step of the system looks like to the message `m`. */
  ghost function LabelOf(cfg: Cfg, s: State, a: Action, m: Mid): Label {
    if !Enabled(cfg, s, a) then Silent
    else if a.Publish? && a.mid == m then Submitted
    else if a.Go? && s.handlers[a.h].event.mid == m && s.handlers[a.h].pc.Post? then Posted
    else if a.Answer? && s.handlers[a.h].event.mid == m then (if a.ok then Accepted else Refused)
    else Silent
  }

  /** The copy's state after a run, or None if the machine refused a label on the way. */
  ghost function CopyRun(cfg: Cfg, actions: seq<Action>, m: Mid): Option<Copy> {
    if actions == [] then Some(Absent)
    else
      var before, a := actions[..|actions| - 1], actions[|actions| - 1];
      var c := CopyRun(cfg, before, m);
      if c.None? then None else Advance(cfg.maxRetries, c.value, LabelOf(cfg, Run(cfg, Init, before), a, m))
  }

  // ----- the refinement relation -----

  /** The ids of dead letters, with multiplicity. */
  function DeadMids(dlq: seq<Event>): multiset<Mid> {
    if dlq == [] then multiset{} else DeadMids(dlq[..|dlq| - 1]) + multiset{dlq[|dlq| - 1].mid}
  }

  lemma DeadMidsAppend(dlq: seq<Event>, e: Event)
    ensures DeadMids(dlq + [e]) == DeadMids(dlq) + multiset{e.mid}
  {
    assert (dlq + [e])[..|dlq|] == dlq;
  }

  predicate CountsFit(c: Copy, published: nat, posts: nat, confirmed: nat, rejected: nat) {
    match c
    case Absent => published == 0 && posts == 0 && confirmed == 0 && rejected == 0
    case Waiting(k) => published == 1 && posts == k && confirmed == 0 && rejected == k
    case InPost(k) => published == 1 && posts == k + 1 && confirmed == 0 && rejected == k
    case Delivered(k) => published == 1 && posts == k + 1 && confirmed == 1 && rejected == k
    case Exhausted(k) => published == 1 && posts == k && confirmed == 0 && rejected == k
  }

  /** A handler of the message is where the copy's state says, or only retires a replaced entry. */
  predicate HandlerFits(c: Copy, hd: Handler) {
    match c
    case Absent => false
    case Waiting(k) =>
      || hd.Retiring()
      || ((hd.pc.SetNx? || hd.pc.Post? || hd.pc.Sleep? || hd.pc.Abandon? || hd.pc.Requeue?) && hd.event.retry == k)
    case InPost(k) => hd.Retiring() || (hd.pc.Posting? && hd.event.retry == k)
    case Delivered(k) =>
      || hd.Retiring()
      || ((hd.pc.Complete? || hd.pc == XAck(Sent) || hd.pc == XDel(Sent)) && hd.event.retry == k)
    case Exhausted(k) =>
      || hd.Retiring()
      || ((hd.pc.Park? || hd.pc.ParkAbandon? || hd.pc == XAck(Parked) || hd.pc == XDel(Parked)) && hd.event.retry == k)
  }

  ghost predicate HandlersFit(c: Copy, handlers: map<Hid, Handler>, m: Mid) {
    forall h :: h in handlers && handlers[h].event.mid == m ==> HandlerFits(c, handlers[h])
  }

  /** A copy nobody works on carries the number of failures so far. */
  ghost predicate CopiesFit(c: Copy, s: State, m: Mid) {
    forall id :: LiveCopy(s, m, id) && NobodyOn(s, id) ==> c == Waiting(s.store.stream[id].event.retry)
  }

  /** While the copy waits, only somebody at work on it has the key. */
  ghost predicate KeyFits(c: Copy, s: State, m: Mid) {
    (c.Waiting? || c.Absent?) && s.store.Live(m) ==>
      exists h :: h in s.handlers && s.handlers[h].event.mid == m && s.handlers[h].Holder()
  }

  ghost predicate AboutToPark(s: State, m: Mid) {
    exists h :: h in s.handlers && s.handlers[h].event.mid == m && s.handlers[h].pc.Park?
  }

  ghost predicate DlqFits(c: Copy, s: State, m: Mid) {
    DeadMids(s.store.dlq)[m] == if c.Exhausted? && !AboutToPark(s, m) then 1 else 0
  }

  ghost predicate Tracks(s: State, m: Mid, c: Copy) {
    && CountsFit(c, s.hist.published[m], s.hist.posts[m], s.hist.confirmed[m], s.hist.rejected[m])
    && HandlersFit(c, s.handlers, m)
    && CopiesFit(c, s, m)
    && KeyFits(c, s, m)
    && DlqFits(c, s, m)
  }

  /** Everything already known about a reachable state of a timely run. */
  ghost predicate Good(cfg: Cfg, s: State, m: Mid) {
    Inv(cfg, s) && IdleOk(s) && Accounts(cfg, s, m)
  }

  /** Published at most once, and no handler of it has died. */
  predicate Undisturbed(s: State, m: Mid) {
    s.hist.published[m] <= 1 && s.hist.deaths[m] == 0 && s.hist.requeueDeaths[m] == 0
  }

  // ----- at most one copy, at most one handler at work on it -----

  lemma AtMostOneCopy(cfg: Cfg, s: State, m: Mid, d: EntryId, e: EntryId)
    requires Good(cfg, s, m) && Undisturbed(s, m)
    requires LiveCopy(s, m, d) && LiveCopy(s, m, e)
    ensures d == e
  {
    if d < e {
      SumTwo(CopyWeights(s, m), s.store.lastId, d, e);
    } else if e < d {
      SumTwo(CopyWeights(s, m), s.store.lastId, e, d);
    }
  }

  predicate AtWork(s: State, h: Hid, m: Mid) {
    h in s.handlers && s.handlers[h].event.mid == m && !s.handlers[h].Retiring() && !s.handlers[h].pc.XDel?
  }

  lemma AtMostOneAtWork(cfg: Cfg, s: State, m: Mid, h: Hid, k: Hid)
    requires Good(cfg, s, m) && Undisturbed(s, m)
    requires AtWork(s, h, m) && AtWork(s, k, m)
    ensures h == k
  {
    CopyWithHandler(cfg, s, h, m);
    CopyWithHandler(cfg, s, k, m);
    AtMostOneCopy(cfg, s, m, s.handlers[h].entry, s.handlers[k].entry);
  }

  /** Nobody is at work on a copy that nobody is on. */
  lemma NobodyAtWork(cfg: Cfg, s: State, m: Mid, id: EntryId, h: Hid)
    requires Good(cfg, s, m) && Undisturbed(s, m)
    requires LiveCopy(s, m, id) && NobodyOn(s, id)
    ensures !AtWork(s, h, m)
  {
    if AtWork(s, h, m) {
      CopyWithHandler(cfg, s, h, m);
      AtMostOneCopy(cfg, s, m, s.handlers[h].entry, id);
    }
  }

  // ----- steps the message does not notice -----

  /** The part of the state that Tracks reads about `m` is the same, or its key has lapsed. */
  ghost predicate Unnoticed(s: State, s': State, m: Mid) {
    && s'.hist.published[m] == s.hist.published[m] && s'.hist.posts[m] == s.hist.posts[m]
    && s'.hist.confirmed[m] == s.hist.confirmed[m] && s'.hist.rejected[m] == s.hist.rejected[m]
    && DeadMids(s'.store.dlq)[m] == DeadMids(s.store.dlq)[m]
    && (s'.store.Live(m) ==> s.store.Live(m))
    && HandlersUnnoticed(s, s', m)
    && (forall id :: LiveCopy(s', m, id) && NobodyOn(s', id) ==>
          LiveCopy(s, m, id) && NobodyOn(s, id) && s'.store.stream[id] == s.store.stream[id])
  }

  ghost predicate HandlersUnnoticed(s: State, s': State, m: Mid) {
    && (forall h :: h in s.handlers && s.handlers[h].event.mid == m ==>
          h in s'.handlers && s'.handlers[h].pc == s.handlers[h].pc && s'.handlers[h].event == s.handlers[h].event)
    && (forall h :: h in s'.handlers && s'.handlers[h].event.mid == m ==>
          h in s.handlers && s.handlers[h].event.mid == m)
  }

  lemma UnnoticedKeepsTracks(s: State, s': State, m: Mid, c: Copy)
    requires Tracks(s, m, c) && Unnoticed(s, s', m)
    ensures Tracks(s', m, c)
  {
    forall h | h in s'.handlers && s'.handlers[h].event.mid == m ensures HandlerFits(c, s'.handlers[h]) {
      assert HandlerFits(c, s.handlers[h]);
    }
    assert AboutToPark(s', m) <==> AboutToPark(s, m);
  }

  lemma DlqAfterGo(cfg: Cfg, st: Store, hd: Handler, st': Store, m: Mid)
    requires OwnStore(cfg, st, hd, st')
    ensures DeadMids(st'.dlq)[m] == DeadMids(st.dlq)[m] + if hd.pc.Park? && hd.event.mid == m then 1 else 0
  {
    if hd.pc.Park? {
      DeadMidsAppend(st.dlq, hd.event);
    }
  }

  lemma OtherGoUnnoticed(cfg: Cfg, s: State, h: Hid, s': State, m: Mid)
    requires Inv(cfg, s) && h in s.handlers && s.handlers[h].event.mid != m && OwnStep(cfg, s, h, s')
    ensures Unnoticed(s, s', m)
  {
    DlqAfterGo(cfg, s.store, s.handlers[h], s'.store, m);
    assert HandlersUnnoticed(s, s', m);
    forall id: EntryId | LiveCopy(s', m, id) && NobodyOn(s', id)
      ensures LiveCopy(s, m, id) && NobodyOn(s, id) && s'.store.stream[id] == s.store.stream[id]
    {
      assert HandlerOk(s.store, s.handlers[h]);
      assert id != s.handlers[h].entry && id <= s.store.lastId;
      GoTouchesOne(cfg, s, h, s', m, id);
    }
  }

  /** Any other action that is not about `m`. */
  ghost predicate Foreign(s: State, a: Action, m: Mid) {
    match a
    case Publish(n, _) => n != m
    case PublishJunk(_) => true
    case Deliver(id, _) => !IsFor(s, id, m)
    case Adopt(id, _) => !IsFor(s, id, m)
    case Go(h) => false
    case Answer(h, _) => h in s.handlers && s.handlers[h].event.mid != m
    case Kill(h) => h in s.handlers && s.handlers[h].event.mid != m
    case Tick(_) => true
  }

  predicate IsFor(s: State, id: EntryId, m: Mid) {
    id in s.store.stream && s.store.stream[id].Json? && s.store.stream[id].event.mid == m
  }

  lemma ForeignUnnoticed(cfg: Cfg, s: State, a: Action, s': State, m: Mid)
    requires Inv(cfg, s) && OtherStep(cfg, s, a, s') && Foreign(s, a, m)
    requires s'.hist.published[m] == s.hist.published[m]
    requires s'.hist.confirmed[m] == s.hist.confirmed[m] && s'.hist.rejected[m] == s.hist.rejected[m]
    ensures Unnoticed(s, s', m)
  {
    forall h | h in s'.handlers ensures Lineage(s, a, s', h) {
    }
    forall id | LiveCopy(s', m, id) && NobodyOn(s', id)
      ensures LiveCopy(s, m, id) && NobodyOn(s, id) && s'.store.stream[id] == s.store.stream[id]
    {
      ForeignCopy(cfg, s, a, s', m, id);
    }
  }

  lemma ForeignCopy(cfg: Cfg, s: State, a: Action, s': State, m: Mid, id: EntryId)
    requires Inv(cfg, s) && OtherStep(cfg, s, a, s') && Foreign(s, a, m)
    requires LiveCopy(s', m, id) && NobodyOn(s', id)
    ensures LiveCopy(s, m, id) && NobodyOn(s, id) && s'.store.stream[id] == s.store.stream[id]
  {
    assert id <= s.store.lastId;
    forall k | k in s.handlers ensures s.handlers[k].entry != id {
      assert HandlerOk(s.store, s.handlers[k]);
      if a != Kill(k) {
        assert Lineage(s, a, s', k);
      }
    }
    if id != Touched(s, a) {
      OthersTouchOne(cfg, s, a, s', m, id);
    }
  }

  // ----- the message's own steps -----

  /** What is given when a handler of `m` moves. */
  ghost predicate Ready(cfg: Cfg, s: State, m: Mid, c: Copy, h: Hid) {
    Good(cfg, s, m) && Undisturbed(s, m) && Tracks(s, m, c) && h in s.handlers && s.handlers[h].event.mid == m
  }

  /** Before an outcome, everybody but the handler at work is retiring. */
  lemma OthersRetire(cfg: Cfg, s: State, m: Mid, c: Copy, h: Hid, k: Hid)
    requires Ready(cfg, s, m, c, h) && AtWork(s, h, m) && (c.Waiting? || c.InPost?)
    requires k in s.handlers && s.handlers[k].event.mid == m && k != h
    ensures s.handlers[k].Retiring()
  {
    assert HandlerFits(c, s.handlers[k]);
    if AtWork(s, k, m) {
      AtMostOneAtWork(cfg, s, m, h, k);
    }
  }

  /** begin_delivery is always won: nobody else can be holding the key. */
  lemma AlwaysWon(cfg: Cfg, s: State, m: Mid, c: Copy, h: Hid)
    requires Ready(cfg, s, m, c, h) && (s.handlers[h].pc.SetNx? || s.handlers[h].pc.Requeue?)
    ensures c.Waiting? && !s.store.Live(m)
  {
    assert HandlerFits(c, s.handlers[h]);
    if s.store.Live(m) {
      var k :| k in s.handlers && s.handlers[k].event.mid == m && s.handlers[k].Holder();
      AtMostOneAtWork(cfg, s, m, h, k);
    }
  }

  function CopyAfterGo(c: Copy, hd: Handler): Copy {
    if c.Waiting? && hd.pc.Post? then InPost(c.fails) else c
  }

  lemma OwnGoFits(cfg: Cfg, s: State, m: Mid, c: Copy, h: Hid, s': State)
    requires Ready(cfg, s, m, c, h) && !s.handlers[h].pc.Posting? && OwnStep(cfg, s, h, s')
    requires s.handlers[h].pc.SetNx? ==> !s.store.Live(m)
    ensures HandlersFit(CopyAfterGo(c, s.handlers[h]), s'.handlers, m)
  {
    var hd := s.handlers[h];
    forall k | k in s'.handlers && s'.handlers[k].event.mid == m
      ensures HandlerFits(CopyAfterGo(c, hd), s'.handlers[k])
    {
      if k == h {
        MovedHandlerFits(cfg, s.store, c, hd);
      } else {
        assert HandlerFits(c, s.handlers[k]);
        if hd.pc.Post? {
          OthersRetire(cfg, s, m, c, h, k);
        }
      }
    }
  }

  lemma MovedHandlerFits(cfg: Cfg, st: Store, c: Copy, hd: Handler)
    requires HandlerFits(c, hd) && !hd.pc.Posting? && After(st, hd).Continue?
    requires hd.pc.SetNx? ==> !st.Live(hd.event.mid)
    ensures HandlerFits(CopyAfterGo(c, hd), Move(cfg, st, hd, After(st, hd).pc))
  {
  }

  lemma OwnGoCopies(cfg: Cfg, s: State, m: Mid, c: Copy, h: Hid, s': State, id: EntryId)
    requires Ready(cfg, s, m, c, h) && OwnStep(cfg, s, h, s') && s'.store.IdsOk()
    requires LiveCopy(s', m, id) && NobodyOn(s', id)
    ensures CopyAfterGo(c, s.handlers[h]) == Waiting(s'.store.stream[id].event.retry)
  {
    var hd := s.handlers[h];
    assert HandlerFits(c, hd);
    assert HandlerOk(s.store, hd);
    assert id != hd.entry;
    if id <= s.store.lastId {
      GoTouchesOne(cfg, s, h, s', m, id);
      NobodyAtWork(cfg, s, m, id, h);
    }
  }

  lemma OwnGoKey(cfg: Cfg, s: State, m: Mid, c: Copy, h: Hid, s': State)
    requires Ready(cfg, s, m, c, h) && OwnStep(cfg, s, h, s')
    requires s.handlers[h].pc.SetNx? || s.handlers[h].pc.Requeue? ==> !s.store.Live(m)
    ensures KeyFits(CopyAfterGo(c, s.handlers[h]), s', m)
  {
    var hd := s.handlers[h];
    assert HandlerFits(c, hd);
    if c.Waiting? && !hd.pc.Post? && s'.store.Live(m) {
      if hd.pc.SetNx? || hd.pc.Sleep? {
        assert s'.handlers[h].Holder();
      } else {
        assert hd.Retiring();
        var k :| k in s.handlers && s.handlers[k].event.mid == m && s.handlers[k].Holder();
        assert k in s'.handlers && s'.handlers[k] == s.handlers[k];
      }
    }
  }

  /** The handler that parks the message is the only one about to. */
  lemma ParkingEnds(cfg: Cfg, s: State, m: Mid, c: Copy, h: Hid, s': State)
    requires Ready(cfg, s, m, c, h) && s.handlers[h].pc.Park? && OwnStep(cfg, s, h, s')
    ensures AboutToPark(s, m) && !AboutToPark(s', m)
  {
    forall k | k in s'.handlers && s'.handlers[k].event.mid == m ensures !s'.handlers[k].pc.Park? {
      if k != h && s.handlers[k].pc.Park? {
        AtMostOneAtWork(cfg, s, m, h, k);
      }
    }
  }

  lemma ParkingStays(cfg: Cfg, s: State, m: Mid, h: Hid, s': State)
    requires h in s.handlers && !s.handlers[h].pc.Posting? && !s.handlers[h].pc.Park? && OwnStep(cfg, s, h, s')
    ensures AboutToPark(s', m) <==> AboutToPark(s, m)
  {
    assert h in s'.handlers ==> !s'.handlers[h].pc.Park?;
  }

  lemma OwnGoDlq(cfg: Cfg, s: State, m: Mid, c: Copy, h: Hid, s': State)
    requires Ready(cfg, s, m, c, h) && !s.handlers[h].pc.Posting? && OwnStep(cfg, s, h, s')
    ensures DlqFits(CopyAfterGo(c, s.handlers[h]), s', m)
  {
    var hd := s.handlers[h];
    assert HandlerFits(c, hd);
    assert CopyAfterGo(c, hd).Exhausted? <==> c.Exhausted?;
    assert hd.pc.Park? ==> c.Exhausted?;
    DlqAfterGo(cfg, s.store, hd, s'.store, m);
    if hd.pc.Park? {
      ParkingEnds(cfg, s, m, c, h, s');
    } else {
      ParkingStays(cfg, s, m, h, s');
    }
  }

  lemma OwnGoKeepsTracks(cfg: Cfg, s: State, m: Mid, c: Copy, h: Hid, s': State)
    requires Ready(cfg, s, m, c, h) && !s.handlers[h].pc.Posting? && OwnStep(cfg, s, h, s') && s'.store.IdsOk()
    ensures Tracks(s', m, CopyAfterGo(c, s.handlers[h]))
    ensures s.handlers[h].pc.Post? ==> c.Waiting?
  {
    var hd := s.handlers[h];
    assert HandlerFits(c, hd);
    if hd.pc.SetNx? || hd.pc.Requeue? {
      AlwaysWon(cfg, s, m, c, h);
    }
    OwnGoFits(cfg, s, m, c, h, s');
    OwnGoKey(cfg, s, m, c, h, s');
    OwnGoDlq(cfg, s, m, c, h, s');
    forall id: EntryId | LiveCopy(s', m, id) && NobodyOn(s', id)
      ensures CopyAfterGo(c, hd) == Waiting(s'.store.stream[id].event.retry)
    {
      OwnGoCopies(cfg, s, m, c, h, s', id);
    }
  }

  lemma AnswerCopies(cfg: Cfg, s: State, m: Mid, c: Copy, h: Hid, ok: bool, id: EntryId)
    requires Ready(cfg, s, m, c, h) && s.handlers[h].pc.Posting?
    ensures !(LiveCopy(AnswerStep(cfg, s, h, ok), m, id) && NobodyOn(AnswerStep(cfg, s, h, ok), id))
  {
    var s' := AnswerStep(cfg, s, h, ok);
    if LiveCopy(s', m, id) && NobodyOn(s', id) {
      forall k | k in s.handlers ensures s.handlers[k].entry != id {
        assert k in s'.handlers && s'.handlers[k].entry == s.handlers[k].entry;
      }
      assert LiveCopy(s, m, id);
      NobodyAtWork(cfg, s, m, id, h);
    }
  }

  lemma AnswerKeepsTracks(cfg: Cfg, s: State, m: Mid, c: Copy, h: Hid, ok: bool)
    requires Ready(cfg, s, m, c, h) && s.handlers[h].pc.Posting?
    ensures Follows(cfg, AnswerStep(cfg, s, h, ok), m, c, if ok then Accepted else Refused)
  {
    var s' := AnswerStep(cfg, s, h, ok);
    assert HandlerFits(c, s.handlers[h]);
    var c' := Advance(cfg.maxRetries, c, if ok then Accepted else Refused).value;
    AnswerFits(cfg, s, m, c, h, ok);
    forall id: EntryId | LiveCopy(s', m, id) && NobodyOn(s', id) ensures false {
      AnswerCopies(cfg, s, m, c, h, ok, id);
    }
    AnswerKeyAndDlq(cfg, s, m, c, h, ok);
  }

  lemma AnswerFits(cfg: Cfg, s: State, m: Mid, c: Copy, h: Hid, ok: bool)
    requires Ready(cfg, s, m, c, h) && s.handlers[h].pc.Posting? && c.InPost?
    ensures HandlersFit(Advance(cfg.maxRetries, c, if ok then Accepted else Refused).value,
                        AnswerStep(cfg, s, h, ok).handlers, m)
  {
    var s' := AnswerStep(cfg, s, h, ok);
    var c' := Advance(cfg.maxRetries, c, if ok then Accepted else Refused).value;
    assert HandlerFits(c, s.handlers[h]);
    forall k | k in s'.handlers && s'.handlers[k].event.mid == m ensures HandlerFits(c', s'.handlers[k]) {
      if k != h {
        OthersRetire(cfg, s, m, c, h, k);
      }
    }
  }

  lemma AnswerKeyAndDlq(cfg: Cfg, s: State, m: Mid, c: Copy, h: Hid, ok: bool)
    requires Tracks(s, m, c) && c.InPost?
    requires h in s.handlers && s.handlers[h].event.mid == m && s.handlers[h].pc.Posting?
    ensures var c' := Advance(cfg.maxRetries, c, if ok then Accepted else Refused).value;
      HandlerFits(c, s.handlers[h]) ==>
        KeyFits(c', AnswerStep(cfg, s, h, ok), m) && DlqFits(c', AnswerStep(cfg, s, h, ok), m)
  {
    var s' := AnswerStep(cfg, s, h, ok);
    assert h in s'.handlers && s'.handlers[h].Holder();
    assert s'.handlers[h].pc.Park? ==> AboutToPark(s', m);
  }

  /** A free copy of `m` is handed to a new handler. */
  lemma HandoutKeepsTracks(cfg: Cfg, s: State, m: Mid, c: Copy, a: Action, s': State)
    requires Good(cfg, s, m) && Undisturbed(s, m) && Tracks(s, m, c)
    requires OtherStep(cfg, s, a, s') && (a.Deliver? || a.Adopt?) && NobodyOn(s, a.id) && IsFor(s, a.id, m)
    ensures Tracks(s', m, c)
  {
    assert LiveCopy(s, m, a.id);
    forall k | k in s'.handlers && s'.handlers[k].event.mid == m ensures HandlerFits(c, s'.handlers[k]) {
      assert Lineage(s, a, s', k);
      if k in s.handlers {
        assert HandlerFits(c, s.handlers[k]);
      }
    }
    forall id: EntryId | LiveCopy(s', m, id) && NobodyOn(s', id)
      ensures c == Waiting(s'.store.stream[id].event.retry)
    {
      HandoutCopies(cfg, s, m, a, s', id);
    }
    HandoutKeyAndDlq(cfg, s, m, c, a, s');
  }

  lemma HandoutCopies(cfg: Cfg, s: State, m: Mid, a: Action, s': State, id: EntryId)
    requires Inv(cfg, s) && OtherStep(cfg, s, a, s') && (a.Deliver? || a.Adopt?) && NobodyOn(s, a.id)
    requires LiveCopy(s', m, id) && NobodyOn(s', id)
    ensures LiveCopy(s, m, id) && NobodyOn(s, id) && s'.store.stream[id] == s.store.stream[id]
  {
    forall k | k in s.handlers ensures s.handlers[k].entry != id {
      assert Lineage(s, a, s', k);
    }
    if id != a.id {
      OthersTouchOne(cfg, s, a, s', m, id);
    }
  }

  lemma HandoutKeyAndDlq(cfg: Cfg, s: State, m: Mid, c: Copy, a: Action, s': State)
    requires KeyFits(c, s, m) && DlqFits(c, s, m)
    requires OtherStep(cfg, s, a, s') && (a.Deliver? || a.Adopt?)
    ensures KeyFits(c, s', m) && DlqFits(c, s', m)
  {
    assert forall k :: k in s.handlers ==> k in s'.handlers && Lineage(s, a, s', k);
    assert forall k :: k in s'.handlers ==> Lineage(s, a, s', k);
    assert AboutToPark(s', m) <==> AboutToPark(s, m);
  }

  lemma SubmissionStartsTracks(cfg: Cfg, s: State, m: Mid, body: string)
    requires Inv(cfg, s) && Tracks(s, m, Absent)
    ensures Tracks(PublishStep(s, m, body), m, Waiting(0))
  {
    var s' := PublishStep(s, m, body);
    forall id: EntryId | LiveCopy(s', m, id) && NobodyOn(s', id)
      ensures s'.store.stream[id].event.retry == 0
    {
      if id <= s.store.lastId {
        assert NobodyOn(s, id) && LiveCopy(s, m, id);
      }
    }
    assert !AboutToPark(s', m);
  }

  // ----- the simulation -----

  /** The machine accepts the label and the state tracks where it leads. */
  ghost predicate Follows(cfg: Cfg, s': State, m: Mid, c: Copy, l: Label) {
    var next := Advance(cfg.maxRetries, c, l);
    next.Some? && Tracks(s', m, next.value)
  }

  lemma IdsAfterGo(cfg: Cfg, st: Store, hd: Handler, st': Store)
    requires st.IdsOk() && HandlerOk(st, hd) && OwnStore(cfg, st, hd, st')
    ensures st'.IdsOk()
  {
  }

  /** A command other than the start of dispatch is silent. */
  lemma GoLabel(cfg: Cfg, s: State, m: Mid, c: Copy, h: Hid)
    requires h in s.handlers && s.handlers[h].event.mid == m && !s.handlers[h].pc.Posting?
    requires s.handlers[h].pc.Post? ==> c.Waiting?
    ensures Advance(cfg.maxRetries, c, LabelOf(cfg, s, Go(h), m)) == Some(CopyAfterGo(c, s.handlers[h]))
  {
  }

  lemma OwnGoTracked(cfg: Cfg, s: State, m: Mid, c: Copy, h: Hid, s': State)
    requires Ready(cfg, s, m, c, h) && !s.handlers[h].pc.Posting? && OwnStep(cfg, s, h, s')
    ensures Follows(cfg, s', m, c, LabelOf(cfg, s, Go(h), m))
  {
    assert HandlerOk(s.store, s.handlers[h]);
    IdsAfterGo(cfg, s.store, s.handlers[h], s'.store);
    OwnGoKeepsTracks(cfg, s, m, c, h, s');
    GoLabel(cfg, s, m, c, h);
  }

  lemma OtherActionTracked(cfg: Cfg, s: State, a: Action, m: Mid, c: Copy)
    requires Good(cfg, s, m) && IdleTimely(cfg, s) && Undisturbed(s, m) && Tracks(s, m, c)
    requires Enabled(cfg, s, a)
    requires (a.Go? || a.Answer? || a.Kill?) ==> s.handlers[a.h].event.mid != m
    requires a.Publish? ==> a.mid != m
    ensures Tracks(Step(cfg, s, a), m, c)
  {
    var s' := Step(cfg, s, a);
    if a.Go? {
      OwnOutline(cfg, s, a.h);
      OtherGoUnnoticed(cfg, s, a.h, s', m);
      UnnoticedKeepsTracks(s, s', m, c);
    } else if (a.Deliver? || a.Adopt?) && IsFor(s, a.id, m) {
      OthersOutline(cfg, s, a);
      HandedOutIsFree(cfg, s, a);
      HandoutKeepsTracks(cfg, s, m, c, a, s');
    } else {
      ForeignTracked(cfg, s, a, m, c);
    }
  }

  lemma ForeignTracked(cfg: Cfg, s: State, a: Action, m: Mid, c: Copy)
    requires Inv(cfg, s) && Tracks(s, m, c) && Enabled(cfg, s, a) && Foreign(s, a, m)
    ensures Tracks(Step(cfg, s, a), m, c)
  {
    OthersOutline(cfg, s, a);
    ForeignUnnoticed(cfg, s, a, Step(cfg, s, a), m);
    UnnoticedKeepsTracks(s, Step(cfg, s, a), m, c);
  }

  lemma {:induction false} StepTracked(cfg: Cfg, s: State, a: Action, m: Mid, c: Copy)
    requires Good(cfg, s, m) && IdleTimely(cfg, s) && Undisturbed(s, m) && Tracks(s, m, c)
    requires Enabled(cfg, s, a)
    requires a.Publish? && a.mid == m ==> m !in s.hist.published
    requires a.Kill? ==> s.handlers[a.h].event.mid != m
    ensures Follows(cfg, Step(cfg, s, a), m, c, LabelOf(cfg, s, a, m))
  {
    if a.Go? && s.handlers[a.h].event.mid == m {
      OwnOutline(cfg, s, a.h);
      OwnGoTracked(cfg, s, m, c, a.h, GoStep(cfg, s, a.h));
    } else if a.Answer? && s.handlers[a.h].event.mid == m {
      AnswerKeepsTracks(cfg, s, m, c, a.h, a.ok);
    } else if a.Publish? && a.mid == m {
      assert c == Absent;
      SubmissionStartsTracks(cfg, s, m, a.body);
    } else {
      OtherActionTracked(cfg, s, a, m, c);
      assert LabelOf(cfg, s, a, m) == Silent;
    }
  }

  /** What an undisturbed run rules out. */
  lemma DisturbingSteps(cfg: Cfg, s: State, a: Action, m: Mid)
    requires Undisturbed(Step(cfg, s, a), m) && Enabled(cfg, s, a)
    ensures a.Publish? && a.mid == m ==> m !in s.hist.published
    ensures a.Kill? ==> s.handlers[a.h].event.mid != m
  {
  }

  lemma DisturbanceStays(cfg: Cfg, s: State, a: Action, m: Mid)
    requires Undisturbed(Step(cfg, s, a), m) && s.nextHid !in s.handlers
    ensures Undisturbed(s, m)
  {
    if Enabled(cfg, s, a) && !a.Go? && !a.Kill? {
      OthersOutline(cfg, s, a);
    }
  }

  lemma {:induction false} Simulation(cfg: Cfg, actions: seq<Action>, m: Mid)
    requires IdleTimelyRun(cfg, actions) && Undisturbed(Run(cfg, Init, actions), m)
    ensures CopyRun(cfg, actions, m).Some? && Tracks(Run(cfg, Init, actions), m, CopyRun(cfg, actions, m).value)
  {
    if actions == [] { return; }
    var before, a := actions[..|actions| - 1], actions[|actions| - 1];
    var s := Run(cfg, Init, before);
    Reachable(cfg, before);
    DisturbanceStays(cfg, s, a, m);
    Simulation(cfg, before, m);
    IdleHolds(cfg, before);
    AccountsHold(cfg, before, m);
    if Enabled(cfg, s, a) {
      DisturbingSteps(cfg, s, a, m);
      StepTracked(cfg, s, a, m, CopyRun(cfg, before, m).value);
    }
  }

  // ----- the results -----

  /** In the machine, failures stay within the limit until they exhaust it exactly. */
  lemma {:induction false} FailuresInRange(cfg: Cfg, actions: seq<Action>, m: Mid)
    requires CopyRun(cfg, actions, m).Some?
    ensures match CopyRun(cfg, actions, m).value
      case Absent => true
      case Exhausted(k) => k == cfg.RetryLimit() + 1
      case Waiting(k) => k <= cfg.RetryLimit()
      case InPost(k) => k <= cfg.RetryLimit()
      case Delivered(k) => k <= cfg.RetryLimit()
  {
    if actions != [] {
      FailuresInRange(cfg, actions[..|actions| - 1], m);
    }
  }

  lemma {:induction false} DeadMidsMember(dlq: seq<Event>, m: Mid)
    ensures DeadMids(dlq)[m] > 0 <==> InDlq(dlq, m)
  {
    if dlq != [] {
      var n := |dlq| - 1;
      DeadMidsMember(dlq[..n], m);
      DlqGrows(dlq[..n], dlq[n]);
      assert dlq == dlq[..n] + [dlq[n]];
    }
  }

  ghost predicate TimelyAndUndisturbed(cfg: Cfg, actions: seq<Action>, m: Mid) {
    && IdleTimelyRun(cfg, actions)
    && Run(cfg, Init, actions).hist.published[m] <= 1
    && Run(cfg, Init, actions).hist.deaths[m] == 0
  }

  /**
    Crash-free refinement. With idle timing, an id published at most once and no
    death among its handlers, the run is one the one-copy machine accepts; the
    dispatches begun, confirmed and rejected are the ones it counts.
   */
  lemma {:induction false} OneCopyRefinement(cfg: Cfg, actions: seq<Action>, m: Mid)
    requires TimelyAndUndisturbed(cfg, actions, m)
    ensures CopyRun(cfg, actions, m).Some?
    ensures var s := Run(cfg, Init, actions);
      CountsFit(CopyRun(cfg, actions, m).value,
                s.hist.published[m], s.hist.posts[m], s.hist.confirmed[m], s.hist.rejected[m])
    ensures Tracks(Run(cfg, Init, actions), m, CopyRun(cfg, actions, m).value)
  {
    LateDeathsAreDeaths(cfg, actions, m);
    Simulation(cfg, actions, m);
  }

  /** There is a copy exactly until the outcome, and never a second one. */
  lemma {:induction false} OneCopyUntilTheOutcome(cfg: Cfg, actions: seq<Action>, m: Mid)
    requires TimelyAndUndisturbed(cfg, actions, m)
    ensures var s := Run(cfg, Init, actions);
      && CopyCount(s, m) <= s.hist.published[m]
      && (m in s.hist.published && s.hist.confirmed[m] == 0 && !InDlq(s.store.dlq, m) ==> CopyCount(s, m) == 1)
  {
    var s := Run(cfg, Init, actions);
    LateDeathsAreDeaths(cfg, actions, m);
    AccountsHold(cfg, actions, m);
    NothingIsLost(cfg, actions);
    if m in s.hist.published && s.hist.confirmed[m] == 0 && !InDlq(s.store.dlq, m) {
      assert Safe(s, m);
      var id :| LiveCopy(s, m, id);
      Reachable(cfg, actions);
      SumBounds(CopyWeights(s, m), s.store.lastId, id);
    }
  }

  /**
    At most one dispatch is confirmed and the id is dead-lettered at most once,
    never both; a dead letter means exactly RetryLimit + 1 dispatches, all
    rejected; and once no copy is left, exactly one of the two has happened.
   */
  lemma {:induction false} ExactlyOneOutcome(cfg: Cfg, actions: seq<Action>, m: Mid)
    requires TimelyAndUndisturbed(cfg, actions, m)
    ensures var s := Run(cfg, Init, actions);
      && s.hist.confirmed[m] + DeadMids(s.store.dlq)[m] <= 1
      && (InDlq(s.store.dlq, m) ==> s.hist.posts[m] == s.hist.rejected[m] == cfg.RetryLimit() + 1)
      && (m in s.hist.published && CopyCount(s, m) == 0 ==> s.hist.confirmed[m] + DeadMids(s.store.dlq)[m] == 1)
  {
    OneCopyRefinement(cfg, actions, m);
    OneCopyUntilTheOutcome(cfg, actions, m);
    FailuresInRange(cfg, actions, m);
    DeadMidsMember(Run(cfg, Init, actions).store.dlq, m);
  }

  /**
    Every handler of the id that is not merely retiring a replaced entry carries
    as retry_count the number of rejected dispatches, and one about to call
    begin_delivery finds the key missing, so it wins.
   */
  lemma {:induction false} RetryCountAndClaims(cfg: Cfg, actions: seq<Action>, m: Mid, h: Hid)
    requires TimelyAndUndisturbed(cfg, actions, m)
    requires var s := Run(cfg, Init, actions);
      h in s.handlers && s.handlers[h].event.mid == m && !s.handlers[h].Retiring()
    ensures var s := Run(cfg, Init, actions);
      && s.handlers[h].event.retry == s.hist.rejected[m]
      && !s.handlers[h].pc.GetKey?
      && (s.handlers[h].pc.SetNx? ==> !s.store.Live(m))
  {
    OneCopyRefinement(cfg, actions, m);
    LateDeathsAreDeaths(cfg, actions, m);
    Reachable(cfg, actions);
    IdleHolds(cfg, actions);
    AccountsHold(cfg, actions, m);
    var s := Run(cfg, Init, actions);
    var c := CopyRun(cfg, actions, m).value;
    assert HandlerFits(c, s.handlers[h]);
    if s.handlers[h].pc.SetNx? {
      AlwaysWon(cfg, s, m, c, h);
    }
  }
}
