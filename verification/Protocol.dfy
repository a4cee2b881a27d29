/**
  The delivery protocol as a state machine: any number of handlers, each running
  `handle` (app/worker.py:125-185) one Redis command at a time over one shared
  store, interleaved with publishing, reads, reclaims, deaths and the clock.
 */
module Protocol {
  import opened RedisStore
  import Config

  type Hid = nat

  datatype Cfg = Cfg(maxRetries: int, claimTtl: real, deliveredTtl: real, minIdle: real)
  {
    /** The number of failures an event may survive. */
    function RetryLimit(): nat {
      if maxRetries >= 0 then maxRetries else 0
    }
  }

  function CfgOf(s: Config.Settings): Cfg {
    Cfg(s.maxRetries, s.ClaimTtlSeconds() as real, s.deliveredTtlSeconds as real, s.MinIdleSeconds())
  }

  /** Why an entry is being retired. */
  datatype Reason = Sent | AlreadySent | Parked | Requeued

  /** The next thing a handler does. */
  datatype Pc =
    | SetNx          // begin_delivery: SET NX EX
    | GetKey         // begin_delivery: GET, after SET NX found a key
    | Post           // won: about to call dispatch
    | Posting        // dispatch has not returned
    | Complete       // complete_delivery
    | Park           // dead_letter
    | ParkAbandon    // abandon_delivery after dead_letter
    | Sleep          // the backoff sleep
    | Abandon        // abandon_delivery before re-publishing
    | Requeue        // enqueue_event
    | XAck(why: Reason)
    | XDel(why: Reason)

  /** `sinceX` split the time since `startAt` by what the handler was doing. */
  datatype Handler = Handler(
    entry: EntryId, event: Event, pc: Pc, startAt: real, wonAt: real,
    posting: real, sleeping: real, other: real)
  {
    /** Between winning the claim and giving it up. */
    predicate Holder() {
      pc.Post? || pc.Posting? || pc.Complete? || pc.Park? || pc.ParkAbandon? || pc.Sleep? || pc.Abandon?
    }

    /** retry_count has been incremented in the local copy of the event. */
    predicate Failed() {
      || pc.Park? || pc.ParkAbandon? || pc.Sleep? || pc.Abandon? || pc.Requeue?
      || ((pc.XAck? || pc.XDel?) && (pc.why.Parked? || pc.why.Requeued?))
    }

    /** dispatch has been entered on this delivery of the entry. */
    predicate Spent() {
      || Failed() || pc.Posting? || pc.Complete?
      || ((pc.XAck? || pc.XDel?) && pc.why.Sent?)
    }

    /** The replacement entry exists; what is left is to retire this one. */
    predicate Retiring() {
      (pc.XAck? || pc.XDel?) && pc.why.Requeued?
    }

    function Elapse(d: real): Handler {
      if pc.Posting? then this.(posting := posting + d)
      else if pc.Sleep? then this.(sleeping := sleeping + d)
      else this.(other := other + d)
    }
  }

  /** What has happened so far; nothing in the protocol reads it. */
  datatype History = History(
    published: multiset<Mid>,          // XADDs by ingest
    sources: set<(Mid, string)>,       // what they carried
    posts: multiset<Mid>,              // dispatches begun
    confirmed: multiset<Mid>,          // dispatches that returned True
    rejected: multiset<Mid>,           // dispatches that returned False
    deaths: multiset<Mid>,             // handlers that died
    lateDeaths: multiset<Mid>,         // ... after entering dispatch, before XACK
    requeueDeaths: multiset<Mid>,      // ... between enqueue_event and XACK
    settled: multiset<Mid>,            // entries XACKed without a replacement
    doneAt: map<Mid, real>,            // last complete_delivery
    claimedBy: map<Mid, Hid>,          // last handler whose SET NX wrote the key
    acked: set<EntryId>,
    deliveries: map<EntryId, seq<real>>)

  datatype State = State(store: Store, handlers: map<Hid, Handler>, nextHid: Hid, hist: History)

  datatype Action =
    | Publish(mid: Mid, body: string)
    | PublishJunk(junk: Payload)
    | Deliver(id: EntryId, consumer: string)
    | Adopt(id: EntryId, consumer: string)
    | Go(h: Hid)
    | Answer(h: Hid, ok: bool)
    | Kill(h: Hid)
    | Tick(d: real)

  const NoHistory := History(multiset{}, {}, multiset{}, multiset{}, multiset{}, multiset{}, multiset{},
                             multiset{}, multiset{}, map[], map[], {}, map[])

  const Init := State(EmptyStore, map[], 0, NoHistory)

  // ----- one command of a handler -----

  /** The effect of the handler's next command on Redis. */
  function Effect(cfg: Cfg, st: Store, hd: Handler): Store {
    match hd.pc
    case SetNx => st.SetIfAbsent(hd.event.mid, cfg.claimTtl)
    case Complete => st.SetDone(hd.event.mid, cfg.deliveredTtl)
    case Park => st.XAddDlq(hd.event)
    case ParkAbandon => st.Delete(hd.event.mid)
    case Abandon => st.Delete(hd.event.mid)
    case Requeue => st.XAdd(Json(hd.event))
    case XAck(_) => st.XAck(hd.entry)
    case XDel(_) => st.XDel(hd.entry)
    case _ => st
  }

  datatype Next = Finished | Continue(pc: Pc)

  /** Where the handler goes after its next command ran against `st`. */
  function After(st: Store, hd: Handler): Next {
    match hd.pc
    case SetNx => Continue(if st.Live(hd.event.mid) then GetKey else Post)
    case GetKey =>
      if st.Live(hd.event.mid) && st.claims[hd.event.mid].value.Done? then Continue(XAck(AlreadySent)) else Finished
    case Post => Continue(Posting)
    case Posting => Continue(Posting)
    case Complete => Continue(XAck(Sent))
    case Park => Continue(ParkAbandon)
    case ParkAbandon => Continue(XAck(Parked))
    case Sleep => Continue(Abandon)
    case Abandon => Continue(Requeue)
    case Requeue => Continue(XAck(Requeued))
    case XAck(why) => Continue(XDel(why))
    case XDel(_) => Finished
  }

  function Move(cfg: Cfg, st: Store, hd: Handler, pc: Pc): Handler {
    if hd.pc.SetNx? && pc.Post? then hd.(pc := pc, wonAt := st.now) else hd.(pc := pc)
  }

  function Record(st: Store, h: Hid, hd: Handler, hist: History): History {
    var m := hd.event.mid;
    hist.(
      claimedBy := if hd.pc.SetNx? && !st.Live(m) then hist.claimedBy[m := h] else hist.claimedBy,
      posts := if hd.pc.Post? then hist.posts + multiset{m} else hist.posts,
      doneAt := if hd.pc.Complete? then hist.doneAt[m := st.now] else hist.doneAt,
      acked := if hd.pc.XAck? then hist.acked + {hd.entry} else hist.acked,
      settled := if hd.pc.XAck? && !hd.pc.why.Requeued? then hist.settled + multiset{m} else hist.settled)
  }

  function GoStep(cfg: Cfg, s: State, h: Hid): State
    requires h in s.handlers
  {
    var hd := s.handlers[h];
    State(
      Effect(cfg, s.store, hd),
      match After(s.store, hd)
        case Finished => s.handlers - {h}
        case Continue(pc) => s.handlers[h := Move(cfg, s.store, hd, pc)],
      s.nextHid,
      Record(s.store, h, hd, s.hist))
  }

  /** dispatch returned; a False answer increments retry_count and decides the branch. */
  function AfterAnswer(cfg: Cfg, hd: Handler, ok: bool): Handler {
    if ok then hd.(pc := Complete)
    else
      var event := hd.event.(retry := hd.event.retry + 1);
      hd.(event := event, pc := if event.retry > cfg.maxRetries then Park else Sleep)
  }

  function AnswerStep(cfg: Cfg, s: State, h: Hid, ok: bool): State
    requires h in s.handlers
  {
    var hd := s.handlers[h];
    var m := multiset{hd.event.mid};
    s.(handlers := s.handlers[h := AfterAnswer(cfg, hd, ok)],
       hist := if ok then s.hist.(confirmed := s.hist.confirmed + m)
               else s.hist.(rejected := s.hist.rejected + m))
  }

  /** A crash, a cancellation or an exception escaping from a command. */
  function KillStep(s: State, h: Hid): State
    requires h in s.handlers
  {
    var hd := s.handlers[h];
    var m := multiset{hd.event.mid};
    var none := multiset{};
    s.(handlers := s.handlers - {h},
       hist := s.hist.(
         deaths := s.hist.deaths + m,
         lateDeaths := s.hist.lateDeaths + (if hd.Spent() && !hd.pc.XDel? then m else none),
         requeueDeaths := s.hist.requeueDeaths + (if hd.Retiring() && hd.pc.XAck? then m else none)))
  }

  // ----- the environment -----

  function PublishStep(s: State, m: Mid, body: string): State {
    s.(store := s.store.XAdd(Json(Event(m, 0, body))),
       hist := s.hist.(published := s.hist.published + multiset{m}, sources := s.hist.sources + {(m, body)}))
  }

  function TimesOf(hist: History, id: EntryId): seq<real> {
    if id in hist.deliveries then hist.deliveries[id] else []
  }

  /** After a delivery: a decodable entry gets a handler, any other is left pending. */
  function Spawn(s: State, st: Store, id: EntryId): State
    requires id in s.store.stream
  {
    var hist := s.hist.(deliveries := s.hist.deliveries[id := TimesOf(s.hist, id) + [s.store.now]]);
    match s.store.stream[id]
    case Json(event) =>
      var hd := Handler(id, event, SetNx, s.store.now, s.store.now, 0.0, 0.0, 0.0);
      State(st, s.handlers[s.nextHid := hd], s.nextHid + 1, hist)
    case _ => State(st, s.handlers, s.nextHid, hist)
  }

  function TickStep(s: State, d: real): State {
    s.(store := s.store.Elapse(d),
       handlers := map h | h in s.handlers :: s.handlers[h].Elapse(d))
  }

  /**
    The server refuses to SET with an expiry that is not positive. The command
    raises, so all that can happen to such a handler is its death.
   */
  predicate Refused(cfg: Cfg, pc: Pc) {
    (pc.SetNx? && cfg.claimTtl <= 0.0) || (pc.Complete? && cfg.deliveredTtl <= 0.0)
  }

  predicate Enabled(cfg: Cfg, s: State, a: Action) {
    match a
    case Publish(_, _) => true
    case PublishJunk(junk) => !junk.Json?
    case Deliver(id, _) => s.store.NextUndelivered(id)
    case Adopt(id, _) => s.store.Stale(id, cfg.minIdle)
    case Go(h) => h in s.handlers && !s.handlers[h].pc.Posting? && !Refused(cfg, s.handlers[h].pc)
    case Answer(h, _) => h in s.handlers && s.handlers[h].pc.Posting?
    case Kill(h) => h in s.handlers
    case Tick(d) => d >= 0.0
  }

  /** An action that is not enabled changes nothing. */
  function Step(cfg: Cfg, s: State, a: Action): State {
    if !Enabled(cfg, s, a) then s else
    match a
    case Publish(m, body) => PublishStep(s, m, body)
    case PublishJunk(junk) => s.(store := s.store.XAdd(junk))
    case Deliver(id, c) => Spawn(s, s.store.Deliver(id, c), id)
    case Adopt(id, c) => Spawn(s, s.store.Adopt(id, c), id)
    case Go(h) => GoStep(cfg, s, h)
    case Answer(h, ok) => AnswerStep(cfg, s, h, ok)
    case Kill(h) => KillStep(s, h)
    case Tick(d) => TickStep(s, d)
  }

  function Run(cfg: Cfg, s: State, actions: seq<Action>): State {
    if actions == [] then s
    else Step(cfg, Run(cfg, s, actions[..|actions| - 1]), actions[|actions| - 1])
  }

  // ----- frames -----

  /** `after` is `before` later on: same delivery of the same entry for the same id. */
  predicate SameDelivery(before: Handler, after: Handler) {
    && after.entry == before.entry && after.event.mid == before.event.mid
    && after.startAt == before.startAt && after.wonAt == before.wonAt && after.sleeping >= before.sleeping
  }

  /** What a step other than a handler's own command may do to the handlers. */
  ghost predicate Lineage(s: State, a: Action, s': State, k: Hid)
    requires k in s'.handlers
  {
    if k in s.handlers then
      && SameDelivery(s.handlers[k], s'.handlers[k])
      && (s'.handlers[k].pc == s.handlers[k].pc ==> s'.handlers[k].event == s.handlers[k].event)
      && (s'.handlers[k].pc == s.handlers[k].pc
          || (a.Answer? && a.h == k && s.handlers[k].pc.Posting?
              && (s'.handlers[k].pc.Complete? || s'.handlers[k].pc.Park? || s'.handlers[k].pc.Sleep?)))
    else
      && (a.Deliver? || a.Adopt?) && k == s.nextHid
      && s'.handlers[k].pc.SetNx? && s'.handlers[k].entry == a.id && s'.handlers[k].startAt == s.store.now
      && a.id in s.store.stream && s.store.stream[a.id] == Json(s'.handlers[k].event)
  }

  /** The outline of a step other than a handler's own command. */
  ghost predicate OtherStep(cfg: Cfg, s: State, a: Action, s': State) {
    && Enabled(cfg, s, a) && !a.Go?
    && OtherStore(s.store, a, s'.store)
    && (forall k :: k in s'.handlers ==> Lineage(s, a, s', k))
    && (forall k :: k in s.handlers && a != Kill(k) ==> k in s'.handlers)
    && (a.Kill? ==> a.h !in s'.handlers)
    && s'.hist.claimedBy == s.hist.claimedBy && s'.hist.doneAt == s.hist.doneAt
    && s'.hist.posts == s.hist.posts && s'.hist.settled == s.hist.settled
    && s'.hist.deliveries == (if a.Deliver? || a.Adopt?
                              then s.hist.deliveries[a.id := TimesOf(s.hist, a.id) + [s.store.now]]
                              else s.hist.deliveries)
    && (!a.Answer? ==> s'.hist.confirmed == s.hist.confirmed && s'.hist.rejected == s.hist.rejected)
    && (!a.Publish? ==> s'.hist.published == s.hist.published)
    && (!a.Kill? ==>
          && s'.hist.deaths == s.hist.deaths
          && s'.hist.lateDeaths == s.hist.lateDeaths
          && s'.hist.requeueDeaths == s.hist.requeueDeaths)
  }

  ghost predicate OtherStore(st: Store, a: Action, st': Store) {
    && st'.claims == st.claims && st'.dlq == st.dlq && st'.now >= st.now
    && (if a.Publish? || a.PublishJunk? then
          && st'.lastId == st.lastId + 1
          && st'.stream == st.stream[st'.lastId := if a.Publish? then Json(Event(a.mid, 0, a.body)) else a.junk]
        else st'.lastId == st.lastId && st'.stream == st.stream)
    && st'.pending == (if a.Deliver? || a.Adopt? then st.pending[a.id := Delivery(a.consumer, st.now)] else st.pending)
    && st'.lastDelivered == if a.Deliver? then a.id else st.lastDelivered
  }

  lemma OthersOutline(cfg: Cfg, s: State, a: Action)
    requires Enabled(cfg, s, a) && !a.Go? && s.nextHid !in s.handlers
    ensures OtherStep(cfg, s, a, Step(cfg, s, a))
  {
    var s' := Step(cfg, s, a);
    forall k | k in s'.handlers ensures Lineage(s, a, s', k) {
    }
  }

  /** The outline of a handler's own command, field by field. */
  ghost predicate OwnStep(cfg: Cfg, s: State, h: Hid, s': State)
    requires h in s.handlers
  {
    var hd := s.handlers[h];
    && OwnStore(cfg, s.store, hd, s'.store)
    && (forall k :: k != h && k in s'.handlers ==> k in s.handlers)
    && (forall k :: k != h && k in s.handlers ==> k in s'.handlers && s'.handlers[k] == s.handlers[k])
    && (h in s'.handlers <==> After(s.store, hd).Continue?)
    && (h in s'.handlers ==> s'.handlers[h] == Move(cfg, s.store, hd, After(s.store, hd).pc))
    && s'.hist == Record(s.store, h, hd, s.hist)
  }

  ghost predicate OwnStore(cfg: Cfg, st: Store, hd: Handler, st': Store) {
    && st'.now == st.now && st'.lastDelivered == st.lastDelivered
    && st'.dlq == (if hd.pc.Park? then st.dlq + [hd.event] else st.dlq)
    && st'.pending == (if hd.pc.XAck? then st.pending - {hd.entry} else st.pending)
    && st'.lastId == (if hd.pc.Requeue? then st.lastId + 1 else st.lastId)
    && st'.stream == (if hd.pc.Requeue? then st.stream[st.lastId + 1 := Json(hd.event)]
                      else if hd.pc.XDel? then st.stream - {hd.entry} else st.stream)
    && st'.claims == (if hd.pc.SetNx? && !st.Live(hd.event.mid)
                      then st.claims[hd.event.mid := Claim(InFlight, st.now + cfg.claimTtl)]
                      else if hd.pc.Complete? then st.claims[hd.event.mid := Claim(Done, st.now + cfg.deliveredTtl)]
                      else if hd.pc.ParkAbandon? || hd.pc.Abandon? then st.claims - {hd.event.mid}
                      else st.claims)
  }

  lemma OwnOutline(cfg: Cfg, s: State, h: Hid)
    requires h in s.handlers
    ensures OwnStep(cfg, s, h, GoStep(cfg, s, h))
  {
  }

  // ----- timing premises -----

  /** Claim timing: whoever holds a claim gives it up before it lapses. */
  ghost predicate ClaimTimely(cfg: Cfg, s: State) {
    forall h :: h in s.handlers && s.handlers[h].Holder() ==>
      s.store.now < s.handlers[h].wonAt + cfg.claimTtl
  }

  /** Idle timing: a handler is done before its entry may be reclaimed. */
  ghost predicate IdleTimely(cfg: Cfg, s: State) {
    forall h :: h in s.handlers ==> s.store.now < s.handlers[h].startAt + cfg.minIdle
  }

  ghost predicate ClaimTimelyRun(cfg: Cfg, actions: seq<Action>) {
    && ClaimTimely(cfg, Run(cfg, Init, actions))
    && (actions == [] || ClaimTimelyRun(cfg, actions[..|actions| - 1]))
  }

  ghost predicate IdleTimelyRun(cfg: Cfg, actions: seq<Action>) {
    && IdleTimely(cfg, Run(cfg, Init, actions))
    && (actions == [] || IdleTimelyRun(cfg, actions[..|actions| - 1]))
  }
}
