/**
  process_batch runs its handlers concurrently (app/worker.py:188-209). What
  happens to one message id depends only on the steps of its own handlers, so
  any interleaving, deaths included, leaves each id as running the handlers one
  by one would, up to the ids of new entries and the clock.
 */
module Batch {
  import opened RedisStore
  import opened Protocol
  import opened Invariants

  datatype Key = Missing | Held(value: ClaimValue)

  /** A handler without its clocks. */
  datatype Core = Core(entry: EntryId, event: Event, pc: Pc)

  /** Everything about one id: entries up to `base` by id, later ones by content and order. */
  datatype View = View(
    handlers: map<Hid, Core>,
    key: Key,
    entries: map<EntryId, Payload>,
    pending: set<EntryId>,
    requeued: seq<Event>,
    dlq: seq<Event>,
    posts: nat,
    confirmed: nat,
    rejected: nat)

  predicate IsFor(stream: map<EntryId, Payload>, id: EntryId, m: Mid) {
    id in stream && stream[id].Json? && stream[id].event.mid == m
  }

  function Only(events: seq<Event>, m: Mid): seq<Event> {
    if events == [] then []
    else Only(events[..|events| - 1], m) + if events[|events| - 1].mid == m then [events[|events| - 1]] else []
  }

  /** The events for `m` in the entries base+1..n, in order. */
  function Appended(stream: map<EntryId, Payload>, base: EntryId, n: EntryId, m: Mid): seq<Event> {
    if n <= base then []
    else Appended(stream, base, n - 1, m) + if IsFor(stream, n, m) then [stream[n].event] else []
  }

  function CoresOf(handlers: map<Hid, Handler>, m: Mid): map<Hid, Core> {
    map h | h in handlers && handlers[h].event.mid == m :: Core(handlers[h].entry, handlers[h].event, handlers[h].pc)
  }

  function EntriesOf(stream: map<EntryId, Payload>, base: EntryId, m: Mid): map<EntryId, Payload> {
    map id | id in stream && id <= base && IsFor(stream, id, m) :: stream[id]
  }

  function PendingOf(st: Store, m: Mid): set<EntryId> {
    set id | id in st.pending && IsFor(st.stream, id, m)
  }

  function KeyOf(st: Store, m: Mid): Key {
    if st.Live(m) then Held(st.claims[m].value) else Missing
  }

  function ViewOf(s: State, base: EntryId, m: Mid): View {
    View(CoresOf(s.handlers, m), KeyOf(s.store, m), EntriesOf(s.store.stream, base, m), PendingOf(s.store, m),
         Appended(s.store.stream, base, s.store.lastId, m), Only(s.store.dlq, m),
         s.hist.posts[m], s.hist.confirmed[m], s.hist.rejected[m])
  }

  // ----- the steps, on a view alone -----

  function NextCore(v: View, hd: Core): Next {
    match hd.pc
    case SetNx => Continue(if v.key.Missing? then Post else GetKey)
    case GetKey => if v.key == Held(Done) then Continue(XAck(AlreadySent)) else Finished
    case Post => Continue(Posting)
    case Posting => Continue(Posting)
    case Complete => Continue(XAck(Sent))
    case Park => Continue(ParkAbandon)
    case ParkAbandon => Continue(XAck(Parked))
    case Sleep => Continue(Abandon)
    case Abandon => Continue(Requeue)
    case Requeue => Continue(XAck(Requeued))
    case XAck(why) => Continue(XDel(why))
    case XDel(_) => Finished
  }

  function ViewGo(cfg: Cfg, v: View, h: Hid): View
    requires h in v.handlers
  {
    var hd := v.handlers[h];
    v.(handlers := match NextCore(v, hd)
                     case Finished => v.handlers - {h}
                     case Continue(pc) => v.handlers[h := hd.(pc := pc)],
       key := if hd.pc.SetNx? && v.key.Missing? then Held(InFlight)
              else if hd.pc.Complete? then Held(Done)
              else if hd.pc.ParkAbandon? || hd.pc.Abandon? then Missing
              else v.key,
       entries := if hd.pc.XDel? then v.entries - {hd.entry} else v.entries,
       pending := if hd.pc.XAck? then v.pending - {hd.entry} else v.pending,
       requeued := if hd.pc.Requeue? then v.requeued + [hd.event] else v.requeued,
       dlq := if hd.pc.Park? then v.dlq + [hd.event] else v.dlq,
       posts := if hd.pc.Post? then v.posts + 1 else v.posts)
  }

  function ViewAnswer(cfg: Cfg, v: View, h: Hid, ok: bool): View
    requires h in v.handlers
  {
    var hd := v.handlers[h];
    if ok then v.(handlers := v.handlers[h := hd.(pc := Complete)], confirmed := v.confirmed + 1)
    else
      var event := hd.event.(retry := hd.event.retry + 1);
      v.(handlers := v.handlers[h := Core(hd.entry, event, if event.retry > cfg.maxRetries then Park else Sleep)],
         rejected := v.rejected + 1)
  }

  function ViewStep(cfg: Cfg, v: View, a: Action): View {
    match a
    case Go(h) =>
      if h in v.handlers && !v.handlers[h].pc.Posting? && !Refused(cfg, v.handlers[h].pc) then ViewGo(cfg, v, h) else v
    case Answer(h, ok) => if h in v.handlers && v.handlers[h].pc.Posting? then ViewAnswer(cfg, v, h, ok) else v
    case Kill(h) => v.(handlers := v.handlers - {h})
    case _ => v
  }

  // ----- the system's steps, seen in a view -----

  /** Within a batch: handlers step, get answers or die, and time passes. */
  predicate BatchAction(a: Action) {
    a.Go? || a.Answer? || a.Kill? || a.Tick?
  }

  predicate BatchActions(actions: seq<Action>) {
    forall i :: 0 <= i < |actions| ==> BatchAction(actions[i])
  }

  lemma OnlyAppend(events: seq<Event>, e: Event, m: Mid)
    ensures Only(events + [e], m) == Only(events, m) + if e.mid == m then [e] else []
  {
    assert (events + [e])[..|events|] == events;
  }

  lemma {:induction false} AppendedFrame(stream: map<EntryId, Payload>, stream': map<EntryId, Payload>,
                                         base: EntryId, n: EntryId, m: Mid)
    requires forall id :: base < id <= n ==>
      (id in stream <==> id in stream') && (id in stream ==> stream[id] == stream'[id])
    ensures Appended(stream, base, n, m) == Appended(stream', base, n, m)
  {
    if n > base {
      AppendedFrame(stream, stream', base, n - 1, m);
    }
  }

  lemma GoAppended(cfg: Cfg, st: Store, hd: Handler, st': Store, base: EntryId, m: Mid)
    requires OwnStore(cfg, st, hd, st') && st.IdsOk() && hd.entry <= base <= st.lastId
    ensures Appended(st'.stream, base, st'.lastId, m)
         == Appended(st.stream, base, st.lastId, m) + if hd.pc.Requeue? && hd.event.mid == m then [hd.event] else []
  {
    AppendedFrame(st.stream, st'.stream, base, st.lastId, m);
  }

  lemma GoDlq(cfg: Cfg, st: Store, hd: Handler, st': Store, m: Mid)
    requires OwnStore(cfg, st, hd, st')
    ensures Only(st'.dlq, m) == Only(st.dlq, m) + if hd.pc.Park? && hd.event.mid == m then [hd.event] else []
  {
    if hd.pc.Park? {
      OnlyAppend(st.dlq, hd.event, m);
    }
  }

  lemma GoKey(cfg: Cfg, st: Store, hd: Handler, st': Store, m: Mid)
    requires OwnStore(cfg, st, hd, st') && !Refused(cfg, hd.pc)
    ensures KeyOf(st', m) ==
      if hd.event.mid != m then KeyOf(st, m)
      else if hd.pc.SetNx? && KeyOf(st, m).Missing? then Held(InFlight)
      else if hd.pc.Complete? then Held(Done)
      else if hd.pc.ParkAbandon? || hd.pc.Abandon? then Missing
      else KeyOf(st, m)
  {
  }

  lemma GoEntries(cfg: Cfg, st: Store, hd: Handler, st': Store, base: EntryId, m: Mid)
    requires OwnStore(cfg, st, hd, st') && st.IdsOk() && HandlerOk(st, hd) && base <= st.lastId
    ensures EntriesOf(st'.stream, base, m) ==
      if hd.pc.XDel? && hd.event.mid == m then EntriesOf(st.stream, base, m) - {hd.entry}
      else EntriesOf(st.stream, base, m)
    ensures PendingOf(st', m) ==
      if hd.pc.XAck? && hd.event.mid == m then PendingOf(st, m) - {hd.entry} else PendingOf(st, m)
  {
  }

  /** One handler changed or left: so did its core, and no other. */
  lemma CoresAfter(before: map<Hid, Handler>, after: map<Hid, Handler>, h: Hid, m: Mid)
    requires forall k :: k != h ==> (k in before <==> k in after)
    requires forall k :: k != h && k in before && k in after ==> before[k] == after[k]
    ensures CoresOf(after, m) ==
      if h in after && after[h].event.mid == m
      then CoresOf(before, m)[h := Core(after[h].entry, after[h].event, after[h].pc)]
      else CoresOf(before, m) - {h}
  {
  }

  lemma RemovingNothing(cores: map<Hid, Core>, h: Hid)
    ensures h !in cores ==> cores - {h} == cores
  {
  }

  lemma GoCores(cfg: Cfg, s: State, h: Hid, s': State, m: Mid, v: View)
    requires h in s.handlers && OwnStep(cfg, s, h, s')
    requires v.handlers == CoresOf(s.handlers, m) && v.key == KeyOf(s.store, m)
    ensures CoresOf(s'.handlers, m) == if h in v.handlers then ViewGo(cfg, v, h).handlers else v.handlers
  {
    CoresAfter(s.handlers, s'.handlers, h, m);
    RemovingNothing(v.handlers, h);
    if h in v.handlers {
      assert NextCore(v, v.handlers[h]) == After(s.store, s.handlers[h]);
    }
  }

  lemma GoInView(cfg: Cfg, s: State, h: Hid, base: EntryId, m: Mid)
    requires s.store.IdsOk() && HandlersOk(s) && Enabled(cfg, s, Go(h))
    requires s.store.lastDelivered <= base <= s.store.lastId
    ensures ViewOf(GoStep(cfg, s, h), base, m) == ViewStep(cfg, ViewOf(s, base, m), Go(h))
  {
    var s' := GoStep(cfg, s, h);
    var hd := s.handlers[h];
    var v := ViewOf(s, base, m);
    OwnOutline(cfg, s, h);
    assert HandlerOk(s.store, hd);
    GoAppended(cfg, s.store, hd, s'.store, base, m);
    GoDlq(cfg, s.store, hd, s'.store, m);
    GoKey(cfg, s.store, hd, s'.store, m);
    GoEntries(cfg, s.store, hd, s'.store, base, m);
    GoCores(cfg, s, h, s', m, v);
  }

  lemma OthersInView(cfg: Cfg, s: State, a: Action, base: EntryId, m: Mid)
    requires (a.Answer? || a.Kill?) && Enabled(cfg, s, a)
    ensures ViewOf(Step(cfg, s, a), base, m) == ViewStep(cfg, ViewOf(s, base, m), a)
  {
    if a.Answer? {
      AnswerInView(cfg, s, a.h, a.ok, base, m);
    } else {
      CoresAfter(s.handlers, KillStep(s, a.h).handlers, a.h, m);
    }
  }

  lemma AnswerInView(cfg: Cfg, s: State, h: Hid, ok: bool, base: EntryId, m: Mid)
    requires h in s.handlers && s.handlers[h].pc.Posting?
    ensures ViewOf(AnswerStep(cfg, s, h, ok), base, m) == ViewStep(cfg, ViewOf(s, base, m), Answer(h, ok))
  {
    var v, s' := ViewOf(s, base, m), AnswerStep(cfg, s, h, ok);
    CoresAfter(s.handlers, s'.handlers, h, m);
    RemovingNothing(v.handlers, h);
  }

  lemma TickInView(s: State, d: real, base: EntryId, m: Mid)
    requires s.store.Live(m) <==> TickStep(s, d).store.Live(m)
    ensures ViewOf(TickStep(s, d), base, m) == ViewOf(s, base, m)
  {
    assert CoresOf(TickStep(s, d).handlers, m) == CoresOf(s.handlers, m);
  }

  /** The wait in which the key of `m` runs out. */
  predicate Lapses(s: State, a: Action, m: Mid) {
    a.Tick? && a.d >= 0.0 && s.store.Live(m) && !s.store.Elapse(a.d).Live(m)
  }

  lemma LapseInView(s: State, d: real, base: EntryId, m: Mid)
    requires Lapses(s, Tick(d), m)
    ensures ViewOf(TickStep(s, d), base, m) == ViewOf(s, base, m).(key := Missing)
  {
    assert CoresOf(TickStep(s, d).handlers, m) == CoresOf(s.handlers, m);
  }

  lemma StepInView(cfg: Cfg, s: State, a: Action, base: EntryId, m: Mid)
    requires s.store.IdsOk() && HandlersOk(s) && BatchAction(a)
    requires s.store.lastDelivered <= base <= s.store.lastId
    ensures ViewOf(Step(cfg, s, a), base, m) ==
      if Lapses(s, a, m) then ViewOf(s, base, m).(key := Missing) else ViewStep(cfg, ViewOf(s, base, m), a)
  {
    if !Enabled(cfg, s, a) {
      NothingInView(cfg, s, a, base, m);
    } else if a.Go? {
      GoInView(cfg, s, a.h, base, m);
    } else if a.Tick? {
      if Lapses(s, a, m) {
        LapseInView(s, a.d, base, m);
      } else {
        TickInView(s, a.d, base, m);
      }
    } else {
      OthersInView(cfg, s, a, base, m);
    }
  }

  lemma NothingInView(cfg: Cfg, s: State, a: Action, base: EntryId, m: Mid)
    requires BatchAction(a) && !Enabled(cfg, s, a)
    ensures ViewStep(cfg, ViewOf(s, base, m), a) == ViewOf(s, base, m)
  {
    if a.Kill? {
      RemovingNothing(ViewOf(s, base, m).handlers, a.h);
    }
  }

  lemma {:induction false} BatchKeepsIds(cfg: Cfg, s: State, actions: seq<Action>)
    requires Inv(cfg, s) && BatchActions(actions)
    ensures var s' := Run(cfg, s, actions);
      Inv(cfg, s') && s'.store.lastDelivered == s.store.lastDelivered && s'.store.lastId >= s.store.lastId
  {
    if actions == [] { return; }
    var before, a := actions[..|actions| - 1], actions[|actions| - 1];
    var mid := Run(cfg, s, before);
    BatchKeepsIds(cfg, s, before);
    StepKeepsInv(cfg, mid, a);
    if Enabled(cfg, mid, a) {
      if a.Go? {
        OwnOutline(cfg, mid, a.h);
      } else {
        OthersOutline(cfg, mid, a);
      }
    }
  }

  // ----- what an id notices of a batch -----

  /** A step, answer or death of one of its handlers, or its key running out. */
  datatype Mark = Own(a: Action) | Lapse

  predicate By(a: Action, hs: set<Hid>) {
    (a.Go? || a.Answer? || a.Kill?) && a.h in hs
  }

  function MarkOf(s: State, a: Action, hs: set<Hid>, m: Mid): seq<Mark> {
    if By(a, hs) then [Own(a)] else if Lapses(s, a, m) then [Lapse] else []
  }

  function MarksOf(cfg: Cfg, s: State, actions: seq<Action>, hs: set<Hid>, m: Mid): seq<Mark> {
    if actions == [] then []
    else
      var before := actions[..|actions| - 1];
      MarksOf(cfg, s, before, hs, m) + MarkOf(Run(cfg, s, before), actions[|actions| - 1], hs, m)
  }

  function ViewMark(cfg: Cfg, v: View, mark: Mark): View {
    match mark
    case Own(a) => ViewStep(cfg, v, a)
    case Lapse => v.(key := Missing)
  }

  function ViewMarks(cfg: Cfg, v: View, marks: seq<Mark>): View {
    if marks == [] then v
    else ViewMark(cfg, ViewMarks(cfg, v, marks[..|marks| - 1]), marks[|marks| - 1])
  }

  lemma MarksNext(cfg: Cfg, v: View, marks: seq<Mark>, mark: Mark)
    ensures ViewMarks(cfg, v, marks + [mark]) == ViewMark(cfg, ViewMarks(cfg, v, marks), mark)
  {
    assert (marks + [mark])[..|marks|] == marks;
  }

  /** The handlers of `m` are among `hs`. */
  ghost predicate WorkOn(s: State, hs: set<Hid>, m: Mid) {
    forall h :: h in s.handlers && s.handlers[h].event.mid == m ==> h in hs
  }

  lemma WorkStays(cfg: Cfg, s: State, a: Action, hs: set<Hid>, m: Mid)
    requires Inv(cfg, s) && BatchAction(a) && WorkOn(s, hs, m)
    ensures WorkOn(Step(cfg, s, a), hs, m)
  {
    if Enabled(cfg, s, a) {
      if a.Go? {
        OwnOutline(cfg, s, a.h);
      } else {
        OthersOutline(cfg, s, a);
        assert forall k :: k in Step(cfg, s, a).handlers ==> Lineage(s, a, Step(cfg, s, a), k);
      }
    }
  }

  /** A step of somebody else's handler, or a wait, is nothing to a view. */
  lemma OthersDoNotShow(cfg: Cfg, s: State, a: Action, hs: set<Hid>, base: EntryId, m: Mid)
    requires BatchAction(a) && !By(a, hs) && WorkOn(s, hs, m)
    ensures ViewStep(cfg, ViewOf(s, base, m), a) == ViewOf(s, base, m)
  {
    if a.Kill? {
      RemovingNothing(ViewOf(s, base, m).handlers, a.h);
    }
  }

  /** One step in a view: what it was marked as, or nothing. */
  lemma MarkInView(cfg: Cfg, s: State, a: Action, hs: set<Hid>, base: EntryId, m: Mid)
    requires s.store.IdsOk() && HandlersOk(s) && BatchAction(a) && WorkOn(s, hs, m)
    requires s.store.lastDelivered <= base <= s.store.lastId
    ensures ViewOf(Step(cfg, s, a), base, m) ==
      if By(a, hs) then ViewMark(cfg, ViewOf(s, base, m), Own(a))
      else if Lapses(s, a, m) then ViewMark(cfg, ViewOf(s, base, m), Lapse)
      else ViewOf(s, base, m)
  {
    StepInView(cfg, s, a, base, m);
    if !By(a, hs) {
      OthersDoNotShow(cfg, s, a, hs, base, m);
    }
  }

  /**
    Each id's view of a batch is a function of its view at the start and of what
    it notices: the steps of its own handlers and the moments its key runs out.
   */
  lemma {:induction false} ViewsEvolveAlone(cfg: Cfg, s: State, actions: seq<Action>, hs: set<Hid>, m: Mid)
    requires Inv(cfg, s) && BatchActions(actions) && WorkOn(s, hs, m)
    ensures ViewOf(Run(cfg, s, actions), s.store.lastId, m)
         == ViewMarks(cfg, ViewOf(s, s.store.lastId, m), MarksOf(cfg, s, actions, hs, m))
    ensures WorkOn(Run(cfg, s, actions), hs, m)
  {
    if actions == [] { return; }
    var before, a := actions[..|actions| - 1], actions[|actions| - 1];
    var mid := Run(cfg, s, before);
    BatchKeepsIds(cfg, s, before);
    ViewsEvolveAlone(cfg, s, before, hs, m);
    WorkStays(cfg, mid, a, hs, m);
    MarkInView(cfg, mid, a, hs, s.store.lastId, m);
    MarksNext(cfg, ViewOf(s, s.store.lastId, m), MarksOf(cfg, s, before, hs, m), if By(a, hs) then Own(a) else Lapse);
    assert MarkOf(mid, a, hs, m) == [] ==> MarksOf(cfg, s, actions, hs, m) == MarksOf(cfg, s, before, hs, m);
  }

  /**
    Non-interference. Two schedules of a batch in which an id's handlers take the
    same steps, get the same answers and die at the same points, and its key runs
    out at the same places among these, leave the id in the same state, whatever
    the other handlers do and die of in between.
   */
  lemma {:induction false} InterleavingDoesNotMatter(cfg: Cfg, s: State, one: seq<Action>, other: seq<Action>,
                                                     hs: set<Hid>, m: Mid)
    requires Inv(cfg, s) && WorkOn(s, hs, m) && BatchActions(one) && BatchActions(other)
    requires MarksOf(cfg, s, one, hs, m) == MarksOf(cfg, s, other, hs, m)
    ensures ViewOf(Run(cfg, s, one), s.store.lastId, m) == ViewOf(Run(cfg, s, other), s.store.lastId, m)
  {
    ViewsEvolveAlone(cfg, s, one, hs, m);
    ViewsEvolveAlone(cfg, s, other, hs, m);
  }

  // ----- as if the others were not there -----

  /** The steps of the given handlers, and all waits. */
  function Alone(actions: seq<Action>, hs: set<Hid>): seq<Action> {
    if actions == [] then []
    else
      var a := actions[|actions| - 1];
      Alone(actions[..|actions| - 1], hs) + if By(a, hs) || a.Tick? then [a] else []
  }

  /** `hs` are the handlers of `m`, and they, its key and the clock are the same in both states. */
  ghost predicate Alike(s: State, t: State, hs: set<Hid>, m: Mid) {
    && s.store.now == t.store.now
    && (m in s.store.claims <==> m in t.store.claims)
    && (m in s.store.claims ==> s.store.claims[m] == t.store.claims[m])
    && (forall h :: h in hs ==> (h in s.handlers <==> h in t.handlers))
    && (forall h :: h in hs && h in s.handlers ==> s.handlers[h] == t.handlers[h] && s.handlers[h].event.mid == m)
    && WorkOn(s, hs, m)
  }

  lemma GoKeepsAlike(cfg: Cfg, s: State, t: State, h: Hid, s': State, t': State, hs: set<Hid>, m: Mid)
    requires Alike(s, t, hs, m) && h in hs && h in s.handlers
    requires OwnStep(cfg, s, h, s') && OwnStep(cfg, t, h, t')
    ensures Alike(s', t', hs, m)
  {
    assert After(s.store, s.handlers[h]) == After(t.store, t.handlers[h]);
  }

  lemma AnswerKeepsAlike(cfg: Cfg, s: State, t: State, h: Hid, ok: bool, hs: set<Hid>, m: Mid)
    requires Alike(s, t, hs, m) && h in hs && h in s.handlers
    ensures Alike(AnswerStep(cfg, s, h, ok), AnswerStep(cfg, t, h, ok), hs, m)
  {
  }

  lemma OwnStepKeepsAlike(cfg: Cfg, s: State, t: State, a: Action, hs: set<Hid>, m: Mid)
    requires Alike(s, t, hs, m) && By(a, hs)
    ensures Alike(Step(cfg, s, a), Step(cfg, t, a), hs, m)
  {
    if !Enabled(cfg, s, a) { return; }
    match a
    case Go(h) =>
      OwnOutline(cfg, s, h);
      OwnOutline(cfg, t, h);
      GoKeepsAlike(cfg, s, t, h, GoStep(cfg, s, h), GoStep(cfg, t, h), hs, m);
    case Answer(h, ok) => AnswerKeepsAlike(cfg, s, t, h, ok, hs, m);
    case Kill(h) =>
  }

  lemma WaitKeepsAlike(cfg: Cfg, s: State, t: State, d: real, hs: set<Hid>, m: Mid)
    requires Alike(s, t, hs, m)
    ensures Alike(Step(cfg, s, Tick(d)), Step(cfg, t, Tick(d)), hs, m)
  {
  }

  lemma OtherStepKeepsAlike(cfg: Cfg, s: State, t: State, a: Action, hs: set<Hid>, m: Mid)
    requires Inv(cfg, s) && Alike(s, t, hs, m) && BatchAction(a) && !By(a, hs) && !a.Tick?
    ensures Alike(Step(cfg, s, a), t, hs, m)
  {
    WorkStays(cfg, s, a, hs, m);
    if Enabled(cfg, s, a) {
      if a.Go? {
        OwnOutline(cfg, s, a.h);
      }
    }
  }

  /** One step of the batch against the same step, or none, of the handlers by themselves. */
  lemma StepKeepsAlike(cfg: Cfg, s: State, t: State, a: Action, hs: set<Hid>, m: Mid)
    requires Inv(cfg, s) && Alike(s, t, hs, m) && BatchAction(a)
    ensures Alike(Step(cfg, s, a), if By(a, hs) || a.Tick? then Step(cfg, t, a) else t, hs, m)
    ensures By(a, hs) || a.Tick? ==> MarkOf(t, a, hs, m) == MarkOf(s, a, hs, m)
    ensures !(By(a, hs) || a.Tick?) ==> MarkOf(s, a, hs, m) == []
  {
    if a.Tick? {
      WaitKeepsAlike(cfg, s, t, a.d, hs, m);
    } else if By(a, hs) {
      OwnStepKeepsAlike(cfg, s, t, a, hs, m);
    } else {
      OtherStepKeepsAlike(cfg, s, t, a, hs, m);
    }
  }

  lemma {:induction false} AloneIsAlike(cfg: Cfg, s: State, actions: seq<Action>, hs: set<Hid>, m: Mid)
    requires Inv(cfg, s) && BatchActions(actions) && Alike(s, s, hs, m)
    ensures BatchActions(Alone(actions, hs))
    ensures Alike(Run(cfg, s, actions), Run(cfg, s, Alone(actions, hs)), hs, m)
    ensures MarksOf(cfg, s, Alone(actions, hs), hs, m) == MarksOf(cfg, s, actions, hs, m)
  {
    if actions == [] { return; }
    var before, a := actions[..|actions| - 1], actions[|actions| - 1];
    var mid, alone := Run(cfg, s, before), Alone(before, hs);
    AloneIsAlike(cfg, s, before, hs, m);
    BatchKeepsIds(cfg, s, before);
    StepKeepsAlike(cfg, mid, Run(cfg, s, alone), a, hs, m);
    if By(a, hs) || a.Tick? {
      assert (alone + [a])[..|alone|] == alone;
    } else {
      assert Alone(actions, hs) == alone;
      assert MarksOf(cfg, s, actions, hs, m) == MarksOf(cfg, s, before, hs, m);
    }
  }

  /**
    With no premise at all on lapses: in any batch, each id ends as if its own
    handlers had run by themselves over the same clock, with the same answers and
    deaths.
   */
  lemma {:induction false} AsIfAlone(cfg: Cfg, s: State, actions: seq<Action>, hs: set<Hid>, m: Mid)
    requires Inv(cfg, s) && BatchActions(actions) && Alike(s, s, hs, m)
    ensures var base := s.store.lastId;
      ViewOf(Run(cfg, s, actions), base, m) == ViewOf(Run(cfg, s, Alone(actions, hs)), base, m)
  {
    AloneIsAlike(cfg, s, actions, hs, m);
    InterleavingDoesNotMatter(cfg, s, actions, Alone(actions, hs), hs, m);
  }

  // ----- one handler after the other -----

  /** The steps, answers and deaths of the given handlers, in order. */
  function StepsOf(actions: seq<Action>, hs: set<Hid>): seq<Action> {
    if actions == [] then []
    else
      StepsOf(actions[..|actions| - 1], hs)
      + if By(actions[|actions| - 1], hs) then [actions[|actions| - 1]] else []
  }

  /** The same steps, first all of hs[0], then all of hs[1], and so on, with no time passing. */
  function OneByOne(actions: seq<Action>, hs: seq<Hid>): seq<Action> {
    if hs == [] then [] else OneByOne(actions, hs[..|hs| - 1]) + StepsOf(actions, {hs[|hs| - 1]})
  }

  lemma {:induction false} StepsOfConcat(one: seq<Action>, two: seq<Action>, hs: set<Hid>)
    ensures StepsOf(one + two, hs) == StepsOf(one, hs) + StepsOf(two, hs)
  {
    if two == [] {
      assert one + two == one;
    } else {
      var n := |two| - 1;
      assert (one + two)[..|one + two| - 1] == one + two[..n];
      StepsOfConcat(one, two[..n], hs);
    }
  }

  /** Filtering the steps of one handler by another keeps all or nothing. */
  lemma {:induction false} StepsOfSteps(actions: seq<Action>, h: Hid, k: Hid)
    ensures StepsOf(StepsOf(actions, {h}), {k}) == if h == k then StepsOf(actions, {h}) else []
  {
    if actions != [] {
      var before, a := actions[..|actions| - 1], actions[|actions| - 1];
      StepsOfSteps(before, h, k);
      if By(a, {h}) {
        StepsOfConcat(StepsOf(before, {h}), [a], {k});
        assert [a][..0] == [];
      } else {
        assert StepsOf(actions, {h}) == StepsOf(before, {h});
      }
    }
  }

  predicate Tickless(actions: seq<Action>) {
    forall i :: 0 <= i < |actions| ==> BatchAction(actions[i]) && !actions[i].Tick?
  }

  lemma {:induction false} StepsAreTickless(actions: seq<Action>, hs: set<Hid>)
    ensures Tickless(StepsOf(actions, hs))
  {
    if actions != [] {
      StepsAreTickless(actions[..|actions| - 1], hs);
    }
  }

  lemma {:induction false} OneByOneIsTickless(actions: seq<Action>, hs: seq<Hid>)
    ensures Tickless(OneByOne(actions, hs))
  {
    if hs != [] {
      OneByOneIsTickless(actions, hs[..|hs| - 1]);
      StepsAreTickless(actions, {hs[|hs| - 1]});
    }
  }

  predicate Distinct(hs: seq<Hid>) {
    forall i, j :: 0 <= i < j < |hs| ==> hs[i] != hs[j]
  }

  lemma {:induction false} OneByOneKeepsSteps(actions: seq<Action>, hs: seq<Hid>, k: Hid)
    requires Distinct(hs)
    ensures StepsOf(OneByOne(actions, hs), {k}) == if k in hs then StepsOf(actions, {k}) else []
  {
    if hs != [] {
      var n := |hs| - 1;
      var before, own := OneByOne(actions, hs[..n]), StepsOf(actions, {hs[n]});
      assert k in hs <==> k in hs[..n] || k == hs[n];
      assert k == hs[n] ==> k !in hs[..n];
      OneByOneKeepsSteps(actions, hs[..n], k);
      StepsOfSteps(actions, hs[n], k);
      StepsOfConcat(before, own, {k});
      assert OneByOne(actions, hs) == before + own;
    }
  }

  function Marked(steps: seq<Action>): seq<Mark> {
    if steps == [] then [] else Marked(steps[..|steps| - 1]) + [Own(steps[|steps| - 1])]
  }

  /** Where the key never runs out, an id notices just the steps of its handlers. */
  lemma {:induction false} LapselessMarks(cfg: Cfg, s: State, actions: seq<Action>, hs: set<Hid>, m: Mid)
    requires Lapse !in MarksOf(cfg, s, actions, hs, m)
    ensures MarksOf(cfg, s, actions, hs, m) == Marked(StepsOf(actions, hs))
  {
    if actions != [] {
      var before, a := actions[..|actions| - 1], actions[|actions| - 1];
      var marks := MarksOf(cfg, s, before, hs, m);
      assert MarksOf(cfg, s, actions, hs, m) == marks + MarkOf(Run(cfg, s, before), a, hs, m);
      LapselessMarks(cfg, s, before, hs, m);
      if By(a, hs) {
        assert (StepsOf(before, hs) + [a])[..|StepsOf(before, hs)|] == StepsOf(before, hs);
      } else {
        assert !Lapses(Run(cfg, s, before), a, m) by {
          assert Lapses(Run(cfg, s, before), a, m) ==> Lapse in marks + [Lapse];
        }
        assert StepsOf(actions, hs) == StepsOf(before, hs);
      }
    }
  }

  lemma {:induction false} TicklessIsLapseless(cfg: Cfg, s: State, actions: seq<Action>, hs: set<Hid>, m: Mid)
    requires Tickless(actions)
    ensures Lapse !in MarksOf(cfg, s, actions, hs, m)
  {
    if actions != [] {
      TicklessIsLapseless(cfg, s, actions[..|actions| - 1], hs, m);
    }
  }

  /**
    A batch of handlers on distinct message ids: a concurrent schedule in which
    the id's key does not run out, handlers that raise included, leaves each id as
    running the handlers one by one (each with the same answers, or dying at the
    same point) would.
   */
  lemma {:induction false} ConcurrentEqualsOneByOne(cfg: Cfg, s: State, actions: seq<Action>, hs: seq<Hid>, h: Hid)
    requires Inv(cfg, s) && BatchActions(actions)
    requires Distinct(hs) && h in hs && h in s.handlers
    requires WorkOn(s, {h}, s.handlers[h].event.mid)
    requires Lapse !in MarksOf(cfg, s, actions, {h}, s.handlers[h].event.mid)
    ensures var m, base := s.handlers[h].event.mid, s.store.lastId;
      ViewOf(Run(cfg, s, actions), base, m) == ViewOf(Run(cfg, s, OneByOne(actions, hs)), base, m)
  {
    var m := s.handlers[h].event.mid;
    OneByOneKeepsSteps(actions, hs, h);
    OneByOneIsTickless(actions, hs);
    TicklessIsLapseless(cfg, s, OneByOne(actions, hs), {h}, m);
    LapselessMarks(cfg, s, actions, {h}, m);
    LapselessMarks(cfg, s, OneByOne(actions, hs), {h}, m);
    InterleavingDoesNotMatter(cfg, s, actions, OneByOne(actions, hs), {h}, m);
  }

  // ----- batches short enough -----

  /** How long the schedule lasts. */
  function Duration(actions: seq<Action>): real {
    if actions == [] then 0.0
    else
      var a := actions[|actions| - 1];
      Duration(actions[..|actions| - 1]) + if a.Tick? && a.d >= 0.0 then a.d else 0.0
  }

  /** If the key is alive now, it still is at `end`. */
  predicate OutlastsOrDead(st: Store, m: Mid, end: real) {
    st.Live(m) ==> end < st.claims[m].expiry
  }

  /** What can be checked before a batch that will be over at `end`. */
  predicate LongEnough(cfg: Cfg, st: Store, m: Mid, end: real) {
    OutlastsOrDead(st, m, end) && end < st.now + cfg.claimTtl && end < st.now + cfg.deliveredTtl
  }

  lemma StepKeepsOutlasting(cfg: Cfg, s: State, a: Action, m: Mid, end: real)
    requires BatchAction(a) && OutlastsOrDead(s.store, m, end)
    requires end < s.store.now + cfg.claimTtl && end < s.store.now + cfg.deliveredTtl
    ensures OutlastsOrDead(Step(cfg, s, a).store, m, end)
  {
    if Enabled(cfg, s, a) && a.Go? {
      OwnOutline(cfg, s, a.h);
    }
  }

  lemma {:induction false} ShortBatchIsLapseless(cfg: Cfg, s: State, actions: seq<Action>, hs: set<Hid>,
                                                 m: Mid, end: real)
    requires BatchActions(actions) && LongEnough(cfg, s.store, m, end) && s.store.now + Duration(actions) <= end
    ensures Lapse !in MarksOf(cfg, s, actions, hs, m)
    ensures var s' := Run(cfg, s, actions);
      OutlastsOrDead(s'.store, m, end) && s'.store.now == s.store.now + Duration(actions) >= s.store.now
  {
    if actions == [] { return; }
    var before, a := actions[..|actions| - 1], actions[|actions| - 1];
    ShortBatchIsLapseless(cfg, s, before, hs, m, end);
    StepKeepsOutlasting(cfg, Run(cfg, s, before), a, m, end);
    ClockAfter(cfg, Run(cfg, s, before), a);
  }

  lemma ClockAfter(cfg: Cfg, s: State, a: Action)
    requires BatchAction(a)
    ensures Step(cfg, s, a).store.now == s.store.now + if a.Tick? && a.d >= 0.0 then a.d else 0.0
  {
    if Enabled(cfg, s, a) && a.Go? {
      OwnOutline(cfg, s, a.h);
    }
  }

  /**
    So a batch that is over before a key alive now, or a claim or marker written
    from now on, would run out leaves each id as running its handlers one by one.
   */
  lemma {:induction false} ShortBatchEqualsOneByOne(cfg: Cfg, s: State, actions: seq<Action>, hs: seq<Hid>, h: Hid)
    requires Inv(cfg, s) && BatchActions(actions)
    requires Distinct(hs) && h in hs && h in s.handlers
    requires WorkOn(s, {h}, s.handlers[h].event.mid)
    requires LongEnough(cfg, s.store, s.handlers[h].event.mid, s.store.now + Duration(actions))
    ensures var m, base := s.handlers[h].event.mid, s.store.lastId;
      ViewOf(Run(cfg, s, actions), base, m) == ViewOf(Run(cfg, s, OneByOne(actions, hs)), base, m)
  {
    ShortBatchIsLapseless(cfg, s, actions, {h}, s.handlers[h].event.mid, s.store.now + Duration(actions));
    ConcurrentEqualsOneByOne(cfg, s, actions, hs, h);
  }

  /**
    A lapse does show. One handler at begin_delivery and one wait: SET NX before
    the wait and after it end in different places exactly when the key runs out
    during the wait (and the server accepts the expiry of a claim at all).
   */
  lemma {:induction false} LapseMatters(cfg: Cfg, s: State, h: Hid, d: real)
    requires h in s.handlers && s.handlers[h].pc.SetNx? && d >= 0.0
    requires s.store.Live(s.handlers[h].event.mid)
    ensures var early, late := Run(cfg, s, [Go(h), Tick(d)]), Run(cfg, s, [Tick(d), Go(h)]);
      && h in early.handlers && h in late.handlers
      && (early.handlers[h].pc != late.handlers[h].pc
          <==> cfg.claimTtl > 0.0 && s.store.now + d >= s.store.claims[s.handlers[h].event.mid].expiry)
  {
    RunOfTwo(cfg, s, Go(h), Tick(d));
    RunOfTwo(cfg, s, Tick(d), Go(h));
    SetNxAnswer(cfg, s, h);
    SetNxAnswer(cfg, TickStep(s, d), h);
    assert SamePc(s, TickStep(s, d), h);
    assert SamePc(Step(cfg, s, Go(h)), TickStep(Step(cfg, s, Go(h)), d), h);
  }

  predicate SamePc(s: State, s': State, h: Hid) {
    h in s.handlers && h in s'.handlers && s'.handlers[h].pc == s.handlers[h].pc
  }

  lemma SetNxAnswer(cfg: Cfg, s: State, h: Hid)
    requires h in s.handlers && s.handlers[h].pc.SetNx?
    ensures var s' := Step(cfg, s, Go(h));
      && h in s'.handlers
      && s'.handlers[h].pc == if cfg.claimTtl <= 0.0 then SetNx
                              else if s.store.Live(s.handlers[h].event.mid) then GetKey else Post
  {
  }

  lemma RunOfTwo(cfg: Cfg, s: State, a: Action, b: Action)
    ensures Run(cfg, s, [a, b]) == Step(cfg, Step(cfg, s, a), b)
  {
    assert [a, b][..1] == [a];
    assert [a][..0] == [];
    assert Run(cfg, s, []) == s;
    assert Run(cfg, s, [a]) == Step(cfg, s, a);
  }
}
