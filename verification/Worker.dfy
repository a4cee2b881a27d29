/**
  The delivery worker (app/worker.py): `handle`, `process_batch` and the loop of
  `run`, written over the queue functions. Each is proved to be a run of the
  state machine, so what holds of every run holds of the code.
 */
module Worker {
  import opened RedisStore
  import opened Protocol
  import opened Invariants
  import opened Queue
  import opened Handout
  import opened Reclaim
  import opened Reading
  import opened NoLoss
  import opened Results
  import opened Coroutines
  import opened Interleaving
  import opened Rota
  import Config

  /** The POST: begun, then answered, unless the handler dies in between. */
  method Dispatch(w: World, h: Hid) returns (r: Result<bool>)
    requires At(w, h, Post)
    modifies w, w.redis
    ensures w.Valid() && old(w.log) <= w.log
    ensures if r.Success? then Answered(w, h, old(w.sys.handlers[h]), r.value) else w.OwnExcept(h) && w.Ended(h, false)
    ensures r.Success? ==> Elsewhere(w, h)
    ensures w.OneAwait(r.Raised?, false) && (r.Success? ==> r.value == NextTurn(old(w.turns)).answer)
  {
    w.Advance(h);
    r := AwaitAnswer(w, h);
  }

  /**
    One entry to its end. Redis and the machine agree
    throughout, so the commands are the machine's, in its order; the handler ends
    by its own last command, or by the exception that some command raised, and
    the worker's other handlers are untouched.
   */
  method Handle(w: World, settings: Config.Settings, h: Hid, entry: EntryId, decoded: Event) returns (r: Result<()>)
    requires At(w, h, SetNx) && w.sys.handlers[h].entry == entry && w.sys.handlers[h].event == decoded
    requires w.cfg == CfgOf(settings)
    modifies w, w.redis
    ensures w.Valid() && old(w.log) <= w.log
    ensures w.OwnExcept(h) && w.Ended(h, r.Success?)
    ensures w.Charged(Count(r.Raised?)) && (w.cfg.claimTtl <= 0.0 ==> r.Raised?)
  {
    var event := decoded;
    var claim :- BeginDelivery(w, settings, h, event.mid);
    if claim == AlreadyDelivered {
      r := Ack(w, h, entry, AlreadySent);
      return;
    }
    if claim == InProgress {
      return Success(());
    }
    r := Attempt(w, settings, h, entry, event);
  }

  /** dispatch returned True: complete, then ack. */
  method Confirm(w: World, settings: Config.Settings, h: Hid, entry: EntryId, event: Event) returns (r: Result<()>)
    requires At(w, h, Complete) && w.sys.handlers[h].entry == entry && w.sys.handlers[h].event == event
    requires w.cfg == CfgOf(settings)
    modifies w, w.redis
    ensures w.Valid() && old(w.log) <= w.log
    ensures w.OwnExcept(h) && w.Ended(h, r.Success?)
    ensures w.Charged(Count(r.Raised?)) && (w.cfg.deliveredTtl > 0.0 ==> w.Paid(Count(r.Raised?)))
  {
    var _ :- CompleteDelivery(w, settings, h, event.mid);
    r := Ack(w, h, entry, Sent);
  }

  /** The claim is won: dispatch, then complete or count the failure. */
  method Attempt(w: World, settings: Config.Settings, h: Hid, entry: EntryId, decoded: Event) returns (r: Result<()>)
    requires At(w, h, Post) && w.sys.handlers[h].entry == entry && w.sys.handlers[h].event == decoded
    requires w.cfg == CfgOf(settings)
    modifies w, w.redis
    ensures w.Valid() && old(w.log) <= w.log
    ensures w.OwnExcept(h) && w.Ended(h, r.Success?)
    ensures w.Charged(Count(r.Raised?)) && (w.cfg.deliveredTtl > 0.0 ==> w.Paid(Count(r.Raised?)))
  {
    var event := decoded;
    var delivered :- Dispatch(w, h);
    if delivered {
      r := Confirm(w, settings, h, entry, event);
      return;
    }
    event := event.(retry := event.retry + 1);
    if event.retry > settings.maxRetries {
      r := GiveUp(w, h, entry, event);
    } else {
      r := TryAgainLater(w, settings, h, entry, event);
    }
  }

  /** The retries are exhausted: dead_letter, then abandon, then ack. */
  method GiveUp(w: World, h: Hid, entry: EntryId, event: Event) returns (r: Result<()>)
    requires At(w, h, Park) && w.sys.handlers[h].entry == entry && w.sys.handlers[h].event == event
    modifies w, w.redis
    ensures w.Valid() && old(w.log) <= w.log
    ensures w.OwnExcept(h) && w.Ended(h, r.Success?)
    ensures w.Paid(Count(r.Raised?))
  {
    var _ :- DeadLetter(w, h, event);
    var _ :- AbandonDelivery(w, h, event.mid);
    r := Ack(w, h, entry, Parked);
  }

  /** Sleep with the claim held, then abandon, then re-publish, then ack. */
  method TryAgainLater(w: World, settings: Config.Settings, h: Hid, entry: EntryId, event: Event)
    returns (r: Result<()>)
    requires At(w, h, Pc.Sleep) && w.sys.handlers[h].entry == entry && w.sys.handlers[h].event == event
    modifies w, w.redis
    ensures w.Valid() && old(w.log) <= w.log
    ensures w.OwnExcept(h) && w.Ended(h, r.Success?)
    ensures w.Paid(Count(r.Raised?))
  {
    var _ :- SleepOutBackoff(w, settings, h, event);
    var _ :- AbandonDelivery(w, h, event.mid);
    r := Republish(w, h, entry, event);
  }

  method Republish(w: World, h: Hid, entry: EntryId, event: Event) returns (r: Result<()>)
    requires At(w, h, Requeue) && w.sys.handlers[h].entry == entry && w.sys.handlers[h].event == event
    modifies w, w.redis
    ensures w.Valid() && old(w.log) <= w.log
    ensures w.OwnExcept(h) && w.Ended(h, r.Success?)
    ensures w.Paid(Count(r.Raised?))
  {
    var _ :- EnqueueEvent(w, h, event);
    r := Ack(w, h, entry, Requeued);
  }

  // ----- batches -----

  /** Decoded entries and the number of the first of their handlers. */
  datatype Job = Job(first: Hid, entries: seq<Entry>)

  /** The worker runs exactly the handlers of the entries, none begun. */
  ghost predicate Waiting(w: World, job: Job)
    reads w, w.redis
  {
    && w.Valid()
    && (forall h :: h in w.own <==> job.first <= h < job.first + |job.entries|)
    && forall h :: job.first <= h < job.first + |job.entries| ==>
         h in w.sys.handlers && AtStart(w.sys.handlers[h], job.entries[h - job.first])
  }

  /** How many of the results are exceptions. */
  function Failed(results: seq<Result<()>>): nat {
    |set i | 0 <= i < |results| && results[i].Raised?|
  }

  /** The loop over the results that logs each exception. */
  method CountFailures(results: seq<Result<()>>) returns (failed: nat)
    ensures failed == Failed(results)
  {
    failed := 0;
    for i := 0 to |results|
      invariant failed == |set j | 0 <= j < i && results[j].Raised?|
    {
      ghost var before := set j | 0 <= j < i && results[j].Raised?;
      ghost var after := set j | 0 <= j < i + 1 && results[j].Raised?;
      if results[i].Raised? {
        failed := failed + 1;
        assert after == before + {i};
      } else {
        assert after == before;
      }
    }
  }

  /**
    process_batch: the handlers of a batch run concurrently, in whatever order the
    event loop resumes them; one exception does not stop the batch, and every
    handler comes to its own end. The results are looked through for exceptions.
   */
  method ProcessBatch(w: World, settings: Config.Settings, job: Job)
    returns (results: seq<Result<()>>, failed: nat, ghost rounds: nat)
    requires Waiting(w, job) && w.cfg == CfgOf(settings)
    modifies w, w.redis, w.loop
    ensures w.Valid() && old(w.log) <= w.log && w.own == {}
    ensures |results| == |job.entries|
    ensures forall i :: 0 <= i < |results| ==> Ending(job.first + i, results[i].Success?) in w.log
    ensures failed == Failed(results)
    ensures w.Charged(failed)
    ensures Gathered(w.cfg, settings, job.first, |job.entries|, old(BoardOf(w)), rounds, BoardOf(w))
  {
    hide Gathered, Failures, Failed, Raises, Run;
    var coroutines := Begin(job.entries);
    BatchBegins(w, job);
    coroutines, rounds := Gather(w, settings, job.first, coroutines);
    results := Outcomes(coroutines);
    failed := CountFailures(results);
    ResultsShow(w.log, job.first, coroutines);
  }

  lemma BatchBegins(w: World, job: Job)
    requires Waiting(w, job)
    ensures UnderWay(w, job.first, Begin(job.entries))
  {
  }

  lemma ResultsShow(log: seq<Action>, first: Hid, coroutines: seq<Coroutine>)
    requires EndsLogged(log, first, coroutines) && forall i :: 0 <= i < |coroutines| ==> !coroutines[i].Running?
    ensures var results := Outcomes(coroutines);
      && (forall i :: 0 <= i < |results| ==> Ending(first + i, results[i].Success?) in log)
      && Failures(coroutines) == Failed(results)
  {
    FailuresShow(coroutines, |coroutines|);
  }

  lemma {:induction false} FailuresShow(coroutines: seq<Coroutine>, n: nat)
    requires n <= |coroutines|
    ensures Failures(coroutines[..n]) == |set i | 0 <= i < n && Outcomes(coroutines)[i].Raised?|
    ensures coroutines[..|coroutines|] == coroutines
  {
    if n > 0 {
      FailuresShow(coroutines, n - 1);
      assert coroutines[..n][..n - 1] == coroutines[..n - 1];
      var before := set i | 0 <= i < n - 1 && Outcomes(coroutines)[i].Raised?;
      var after := set i | 0 <= i < n && Outcomes(coroutines)[i].Raised?;
      assert after == if coroutines[n - 1].Threw? then before + {n - 1} else before;
    }
  }

  // ----- the loop -----

  /** The entries just handed to `consumer`, with a handler each. */
  method TakeBatch(w: World, raws: seq<Raw>, actions: seq<Action>) returns (job: Job)
    requires w.Followed() && w.own == {}
    requires Inv(w.cfg, w.sys)
    requires Spawned(w.sys, Run(w.cfg, w.sys, actions), Decoded(raws))
    requires w.redis.View() == Run(w.cfg, w.sys, actions).store
    modifies w
    ensures old(w.log) <= w.log && job.entries == Decoded(raws) && Waiting(w, job)
    ensures w.sys == Run(w.cfg, old(w.sys), actions)
    ensures w.turns == old(w.turns)
  {
    var entries := Decode(raws);
    var first := w.sys.nextHid;
    w.TakeAll(actions);
    w.own := Numbers(first, |entries|);
    job := Job(first, entries);
    NumbersAre(first, |entries|);
  }

  function Numbers(first: Hid, n: nat): set<Hid> {
    if n == 0 then {} else Numbers(first, n - 1) + {first + n - 1}
  }

  lemma {:induction false} NumbersAre(first: Hid, n: nat)
    ensures forall h :: h in Numbers(first, n) <==> first <= h < first + n
  {
    if n > 0 {
      NumbersAre(first, n - 1);
    }
  }

  /** `others` happened, then XREADGROUP handed out the next entries, and `entries` are the readable ones. */
  ghost predicate ReadBy(cfg: Cfg, consumer: string, batch: nat, from: State, others: seq<Action>, to: State,
                         entries: seq<Entry>) {
    var s := Run(cfg, from, others);
    var ids := s.store.FirstIds(s.store.lastDelivered + 1, batch);
    to == Run(cfg, s, Delivers(ids, consumer)) && entries == Decoded(RawOf(s.store, ids))
  }

  /** An await outside any handler, as a run from where the worker was. */
  method Pause(w: World, command: Command) returns (r: Result<()>, ghost others: seq<Action>)
    requires w.Valid() && w.own == {}
    modifies w, w.redis, w.redis.monitor
    ensures w.Valid() && old(w.log) <= w.log && w.own == {}
    ensures Inv(w.cfg, w.sys) && w.sys == Run(w.cfg, old(w.sys), others)
    ensures w.redis.monitor.calls == old(w.redis.monitor.calls) + if r.Raised? then [Broke(command)] else []
    ensures w.OneAwait(r.Raised?, false) && Raises(w.turns) + Count(r.Raised?) == Raises(old(w.turns))
  {
    w.IsARun();
    ghost var before := w.log;
    r := w.AwaitIdle(command);
    w.IsARun();
    others := w.log[|before|..];
    assert before + others == w.log;
    RunConcat(w.cfg, Init, before, others);
  }

  /** What XREADGROUP does, as a run: the ids it hands out, read before or after. */
  lemma NextRead(cfg: Cfg, s: State, ids: seq<EntryId>, consumer: string, batch: nat)
    requires Inv(cfg, s) && ids == s.store.FirstIds(s.store.lastDelivered + 1, batch)
    ensures Run(cfg, s, Delivers(ids, consumer)).store == s.store.DeliverAll(ids, consumer)
    ensures Spawned(s, Run(cfg, s, Delivers(ids, consumer)), Decoded(RawOf(s.store, ids)))
    ensures RawOf(s.store.DeliverAll(ids, consumer), ids) == RawOf(s.store, ids)
    ensures |Decoded(RawOf(s.store, ids))| <= batch
  {
    FirstIdsAreNext(s.store, s.store.lastDelivered, s.store.lastDelivered + 1, batch);
    ReadIsARun(cfg, s, ids, consumer);
    DeliverAllFrame(s.store, ids, consumer);
    DecodedIsShorter(RawOf(s.store, ids));
  }

  /** read_new: up to `batch` entries never delivered before. */
  method ReadNew(w: World, consumer: string, batch: nat) returns (r: Result<Job>, ghost others: seq<Action>)
    requires w.Valid() && w.own == {}
    modifies w, w.redis, w.redis.monitor
    ensures w.Valid() && old(w.log) <= w.log
    ensures if r.Success? then Waiting(w, r.value) && |r.value.entries| <= batch else w.own == {}
    ensures r.Success? ==> ReadBy(w.cfg, consumer, batch, old(w.sys), others, w.sys, r.value.entries)
    ensures w.redis.monitor.calls
         == old(w.redis.monitor.calls) + [if r.Success? then Ran(ReadGroup) else Broke(ReadGroup)]
    ensures w.OneAwait(r.Raised?, false) && Raises(w.turns) + Count(r.Raised?) == Raises(old(w.turns))
  {
    hide Raises, Decoded, Run, Inv;
    var paused;
    paused, others := Pause(w, ReadGroup);
    if paused.Raised? {
      return Raised, others;
    }
    ghost var before := w.sys;
    var ids := w.redis.XReadGroup(consumer, batch);
    NextRead(w.cfg, before, ids, consumer, batch);
    var raws := RawOf(w.redis.View(), ids);
    var job := TakeBatch(w, raws, Delivers(ids, consumer));
    return Success(job), others;
  }

  lemma {:induction false} DecodedIsShorter(raws: seq<Raw>)
    ensures |Decoded(raws)| <= |raws|
  {
    if raws != [] {
      DecodedIsShorter(raws[..|raws| - 1]);
    }
  }

  datatype Reclaimed = Reclaimed(job: Job, cursor: EntryId)

  /** `others` happened, then XAUTOCLAIM swept from `cursor`; `r` holds its readable entries and the next cursor. */
  ghost predicate SweptBy(cfg: Cfg, consumer: string, batch: nat, from: Sweeper, others: seq<Action>,
                          to: State, r: Reclaimed) {
    var s := Run(cfg, from.s, others);
    && Sweeper(to, r.cursor) == OneSweep(cfg, consumer, batch, from, others)
    && r.job.entries == Decoded(RawOf(s.store, s.store.Scan(cfg.minIdle, from.cursor, 10 * batch, batch).adopted))
  }

  /** reclaim_stale: adopt up to `batch` stale entries from the cursor on. */
  method ReclaimStale(w: World, consumer: string, cursor: EntryId, batch: nat)
    returns (r: Result<Reclaimed>, ghost others: seq<Action>)
    requires w.Valid() && w.own == {}
    modifies w, w.redis, w.redis.monitor
    ensures w.Valid() && old(w.log) <= w.log
    ensures if r.Success? then Waiting(w, r.value.job) && |r.value.job.entries| <= batch else w.own == {}
    ensures r.Success? ==> SweptBy(w.cfg, consumer, batch, Sweeper(old(w.sys), cursor), others, w.sys, r.value)
    ensures w.redis.monitor.calls
         == old(w.redis.monitor.calls) + [if r.Success? then Ran(AutoClaim) else Broke(AutoClaim)]
    ensures w.OneAwait(r.Raised?, false) && Raises(w.turns) + Count(r.Raised?) == Raises(old(w.turns))
  {
    var paused;
    paused, others := Pause(w, AutoClaim);
    if paused.Raised? {
      return Raised, others;
    }
    ghost var before := w.sys;
    var next, ids := w.redis.XAutoClaim(consumer, w.cfg.minIdle, cursor, batch);
    ScanAdoptsStale(before.store, w.cfg.minIdle, cursor, 10 * batch, batch);
    ReclaimIsARun(w.cfg, before, ids, consumer);
    AdoptAllFrame(before.store, ids, consumer, 0);
    var raws := RawOf(w.redis.View(), ids);
    assert raws == RawOf(before.store, ids);
    DecodedIsShorter(raws);
    var job := TakeBatch(w, raws, Adopts(ids, consumer));
    return Success(Reclaimed(job, next)), others;
  }

  /** The sweeps a worker has completed: where it began, what happened before each, and its log at the last. */
  datatype Swept = Swept(start: Sweeper, rounds: seq<seq<Action>>, log: seq<Action>)

  /** The recorded sweeps, one after the other, lead to the state at the end of that log and to the cursor. */
  ghost predicate SweptSoFar(cfg: Cfg, consumer: string, batch: nat, swept: Swept, cursor: EntryId) {
    Sweeps(cfg, consumer, batch, swept.start, swept.rounds) == Sweeper(Run(cfg, Init, swept.log), cursor)
  }

  lemma SweptOnceMore(cfg: Cfg, consumer: string, batch: nat, swept: Swept, cursor: EntryId,
                      before: seq<Action>, others: seq<Action>, after: seq<Action>, r: Reclaimed)
    requires SweptSoFar(cfg, consumer, batch, swept, cursor) && swept.log <= before
    requires SweptBy(cfg, consumer, batch, Sweeper(Run(cfg, Init, before), cursor), others, Run(cfg, Init, after), r)
    ensures var round := before[|swept.log|..] + others;
      SweptSoFar(cfg, consumer, batch, Swept(swept.start, swept.rounds + [round], after), r.cursor)
  {
    var since := before[|swept.log|..];
    assert swept.log + since == before;
    RunConcat(cfg, Init, swept.log, since);
    RunConcat(cfg, Run(cfg, Init, swept.log), since, others);
    OneMoreSweep(cfg, consumer, batch, swept.start, swept.rounds, since + others);
  }

  /** The entries stale at the start, with no more pending ids up to them than there were sweeps. */
  ghost predicate StaleOnesReached(cfg: Cfg, from: State, to: State, sweeps: nat) {
    forall e :: from.store.Stale(e, cfg.minIdle) && Ahead(from.store.pending, 0, e) <= sweeps ==>
      e in from.hist.deliveries && Reached(from, to, e)
  }

  /** The entry is stale after the k-th sweep, and there are enough sweeps to come. */
  ghost predicate StaleInTime(cfg: Cfg, consumer: string, batch: nat, from: State, rounds: seq<seq<Action>>,
                              k: nat, e: EntryId)
    requires k <= |rounds|
  {
    var w := Sweeps(cfg, consumer, batch, Sweeper(from, 0), rounds[..k]);
    w.s.store.Stale(e, cfg.minIdle) && SweepsNeeded(w, rounds[k..], e) <= |rounds| - k
  }

  /** Every such entry, above or below the cursor, is handed out again or done with at the end. */
  ghost predicate LateOnesReached(cfg: Cfg, consumer: string, batch: nat, from: State, rounds: seq<seq<Action>>,
                                  to: State) {
    forall k, e :: 0 <= k <= |rounds| && StaleInTime(cfg, consumer, batch, from, rounds, k, e) ==>
      var s := Sweeps(cfg, consumer, batch, Sweeper(from, 0), rounds[..k]).s;
      e in s.hist.deliveries && Reached(s, to, e)
  }

  /** What others, and the worker's own handlers, did after the last sweep. */
  function SinceSwept(swept: Swept, log: seq<Action>): seq<Action>
    requires swept.log <= log
  {
    log[|swept.log|..]
  }

  lemma SweptReaches(cfg: Cfg, consumer: string, batch: nat, swept: Swept, cursor: EntryId, first: seq<Action>,
                     log: seq<Action>)
    requires SweptSoFar(cfg, consumer, batch, swept, cursor) && swept.log <= log
    requires swept.start == Sweeper(Run(cfg, Init, first), 0)
    ensures var from, to := Run(cfg, Init, first), Run(cfg, Init, log);
      && to == Run(cfg, Sweeps(cfg, consumer, batch, Sweeper(from, 0), swept.rounds).s, SinceSwept(swept, log))
      && (batch > 0 ==>
            && StaleOnesReached(cfg, from, to, |swept.rounds|)
            && LateOnesReached(cfg, consumer, batch, from, swept.rounds, to))
  {
    var rest := SinceSwept(swept, log);
    assert swept.log + rest == log;
    RunConcat(cfg, Init, swept.log, rest);
    var from := Run(cfg, Init, first);
    if batch > 0 {
      forall e | from.store.Stale(e, cfg.minIdle) && Ahead(from.store.pending, 0, e) <= |swept.rounds|
        ensures e in from.hist.deliveries && Reached(from, Run(cfg, Init, log), e)
      {
        CoverageStays(cfg, first, consumer, batch, swept.rounds, rest, e);
      }
      LateReaches(cfg, consumer, batch, first, swept.rounds, rest);
    }
  }

  lemma LateReaches(cfg: Cfg, consumer: string, batch: nat, first: seq<Action>, rounds: seq<seq<Action>>,
                    rest: seq<Action>)
    requires batch > 0
    ensures var from := Run(cfg, Init, first);
      LateOnesReached(cfg, consumer, batch, from, rounds,
                      Run(cfg, Sweeps(cfg, consumer, batch, Sweeper(from, 0), rounds).s, rest))
  {
    var from := Run(cfg, Init, first);
    forall k, e | 0 <= k <= |rounds| && StaleInTime(cfg, consumer, batch, from, rounds, k, e)
      ensures var s := Sweeps(cfg, consumer, batch, Sweeper(from, 0), rounds[..k]).s;
        && e in s.hist.deliveries
        && Reached(s, Run(cfg, Sweeps(cfg, consumer, batch, Sweeper(from, 0), rounds).s, rest), e)
    {
      CoverageFromAnyCursor(cfg, first, consumer, batch, rounds, k, rest, e);
    }
  }

  /** By the end of the log, `served` of the entries waiting at `from` have been handed out, or all up to each. */
  ghost predicate ServedBy(cfg: Cfg, from: Store, log: seq<Action>, served: nat) {
    var st := Run(cfg, Init, log).store;
    from.IdsOk() && from.lastId <= st.lastId && AllServed(from, st, served)
  }

  lemma ServedLater(cfg: Cfg, from: Store, before: seq<Action>, log: seq<Action>, served: nat)
    requires ServedBy(cfg, from, before, served) && before <= log
    ensures ServedBy(cfg, from, log, served)
  {
    Reachable(cfg, before);
    assert before + log[|before|..] == log;
    RunConcat(cfg, Init, before, log[|before|..]);
    RunServes(cfg, from, Run(cfg, Init, before), log[|before|..], served);
  }

  lemma ServedByRead(cfg: Cfg, consumer: string, batch: nat, from: Store, before: seq<Action>, served: nat,
                     others: seq<Action>, after: seq<Action>, entries: seq<Entry>)
    requires ServedBy(cfg, from, before, served)
    requires ReadBy(cfg, consumer, batch, Run(cfg, Init, before), others, Run(cfg, Init, after), entries)
    ensures ServedBy(cfg, from, after, served + batch)
  {
    Reachable(cfg, before);
    RunServes(cfg, from, Run(cfg, Init, before), others, served);
    ReadServes(cfg, from, Run(cfg, Run(cfg, Init, before), others), consumer, batch, served);
  }

  /** What a loop begun at `from` has done: its sweeps, its log at the last read, and how many reads. */
  datatype Ledger = Ledger(swept: Swept, log: seq<Action>, readings: nat)

  ghost predicate InOrder(cfg: Cfg, consumer: string, batch: nat, from: State, l: Ledger, cursor: EntryId,
                          log: seq<Action>) {
    && SweptSoFar(cfg, consumer, batch, l.swept, cursor) && l.swept.log <= log && l.swept.start == Sweeper(from, 0)
    && ServedBy(cfg, from.store, l.log, l.readings * batch) && l.log <= log
  }

  lemma StaysInOrder(cfg: Cfg, consumer: string, batch: nat, from: State, l: Ledger, cursor: EntryId,
                     log: seq<Action>, later: seq<Action>)
    requires InOrder(cfg, consumer, batch, from, l, cursor, log) && log <= later
    ensures InOrder(cfg, consumer, batch, from, l, cursor, later)
  {
  }

  lemma InOrderAtStart(cfg: Cfg, consumer: string, batch: nat, log: seq<Action>)
    ensures var from := Run(cfg, Init, log);
      InOrder(cfg, consumer, batch, from, Ledger(Swept(Sweeper(from, 0), [], log), log, 0), 0, log)
  {
    Reachable(cfg, log);
  }

  lemma OneMoreReading(cfg: Cfg, consumer: string, batch: nat, from: State, l: Ledger, cursor: EntryId,
                       before: seq<Action>, others: seq<Action>, after: seq<Action>, entries: seq<Entry>)
    requires InOrder(cfg, consumer, batch, from, l, cursor, before) && before <= after
    requires ReadBy(cfg, consumer, batch, Run(cfg, Init, before), others, Run(cfg, Init, after), entries)
    ensures InOrder(cfg, consumer, batch, from, Ledger(l.swept, after, l.readings + 1), cursor, after)
  {
    ServedLater(cfg, from.store, l.log, before, l.readings * batch);
    ServedByRead(cfg, consumer, batch, from.store, before, l.readings * batch, others, after, entries);
    assert (l.readings + 1) * batch == l.readings * batch + batch;
  }

  lemma OneMoreSweeping(cfg: Cfg, consumer: string, batch: nat, from: State, l: Ledger, cursor: EntryId,
                        before: seq<Action>, others: seq<Action>, after: seq<Action>, r: Reclaimed)
    returns (l': Ledger)
    requires InOrder(cfg, consumer, batch, from, l, cursor, before) && before <= after
    requires SweptBy(cfg, consumer, batch, Sweeper(Run(cfg, Init, before), cursor), others, Run(cfg, Init, after), r)
    ensures InOrder(cfg, consumer, batch, from, l', r.cursor, after)
    ensures l'.readings == l.readings && |l'.swept.rounds| == |l.swept.rounds| + 1
  {
    SweptOnceMore(cfg, consumer, batch, l.swept, cursor, before, others, after, r);
    l' := l.(swept := Swept(l.swept.start, l.swept.rounds + [before[|l.swept.log|..] + others], after));
  }

  /** What the ledger comes to. */
  lemma LoopResults(cfg: Cfg, consumer: string, batch: nat, first: seq<Action>, l: Ledger, cursor: EntryId,
                    log: seq<Action>)
    requires InOrder(cfg, consumer, batch, Run(cfg, Init, first), l, cursor, log)
    ensures var from, to := Run(cfg, Init, first), Run(cfg, Init, log);
      && NonePublishedLost(to)
      && to == Run(cfg, Sweeps(cfg, consumer, batch, Sweeper(from, 0), l.swept.rounds).s, SinceSwept(l.swept, log))
      && (batch > 0 ==>
            && StaleOnesReached(cfg, from, to, |l.swept.rounds|)
            && LateOnesReached(cfg, consumer, batch, from, l.swept.rounds, to))
      && WaitingOnesDelivered(from.store, to.store, l.readings * batch)
  {
    NothingIsLost(cfg, log);
    SweptReaches(cfg, consumer, batch, l.swept, cursor, first, log);
    ServedLater(cfg, Run(cfg, Init, first).store, l.log, log, l.readings * batch);
    ServedAreDelivered(Run(cfg, Init, first).store, Run(cfg, Init, log).store, l.readings * batch);
  }

  /** process_batch as the loop calls it, which looks at no result. */
  method WorkOff(w: World, settings: Config.Settings, job: Job)
    requires Waiting(w, job) && w.cfg == CfgOf(settings)
    modifies w, w.redis, w.loop
    ensures w.Valid() && old(w.log) <= w.log && w.own == {} && Raises(w.turns) <= Raises(old(w.turns))
  {
    hide Gathered;
    var _, _, _ := ProcessBatch(w, settings, job);
  }

  /** The reclaim half of the loop: sweep from the cursor, then process what was adopted. */
  method SweepAndProcess(w: World, settings: Config.Settings, consumer: string, batch: nat, cursor: EntryId,
                         ghost from: State, ghost l: Ledger)
    returns (r: Result<EntryId>, ghost l': Ledger)
    requires w.Valid() && w.own == {} && w.cfg == CfgOf(settings)
    requires InOrder(w.cfg, consumer, batch, from, l, cursor, w.log)
    modifies w, w.redis, w.redis.monitor, w.loop
    ensures w.Valid() && old(w.log) <= w.log && w.own == {}
    ensures InOrder(w.cfg, consumer, batch, from, l', if r.Success? then r.value else cursor, w.log)
    ensures l'.readings == l.readings && |l'.swept.rounds| == |l.swept.rounds| + if r.Success? then 1 else 0
    ensures Raises(w.turns) + Count(r.Raised?) <= Raises(old(w.turns))
    ensures w.redis.monitor.calls
         == old(w.redis.monitor.calls) + [if r.Success? then Ran(AutoClaim) else Broke(AutoClaim)]
  {
    hide InOrder, Raises, Run;
    w.IsARun();
    ghost var before := w.log;
    l' := l;
    var reclaimed, others := ReclaimStale(w, consumer, cursor, batch);
    if reclaimed.Raised? {
      StaysInOrder(w.cfg, consumer, batch, from, l, cursor, before, w.log);
      return Raised, l';
    }
    w.IsARun();
    l' := OneMoreSweeping(w.cfg, consumer, batch, from, l, cursor, before, others, w.log, reclaimed.value);
    ghost var after := w.log;
    WorkOff(w, settings, reclaimed.value.job);
    StaysInOrder(w.cfg, consumer, batch, from, l', reclaimed.value.cursor, after, w.log);
    return Success(reclaimed.value.cursor), l';
  }

  function Max(a: nat, b: int): nat {
    if b >= a then b else a
  }

  lemma PendingFitsTheStream(st: Store)
    requires st.IdsOk()
    ensures |st.pending| <= |st.stream|
  {
    assert st.stream.Keys == st.pending.Keys + (st.stream.Keys - st.pending.Keys);
    assert |st.stream.Keys| == |st.pending.Keys| + |st.stream.Keys - st.pending.Keys|;
  }

  datatype Counts = Counts(queued: nat, inFlight: nat, deadLettered: nat)

  /** What others did before each of the three commands of depth(). */
  datatype Meanwhile = Meanwhile(first: seq<Action>, second: seq<Action>, third: seq<Action>)

  /** Each count is the truth at its own command, or 0 if XPENDING failed; and the two are kept apart. */
  ghost predicate Measured(cfg: Cfg, from: State, others: Meanwhile, to: State, summary: bool, c: Counts) {
    var atLength := Run(cfg, from, others.first);
    var atDlq := Run(cfg, atLength, others.second);
    && to == Run(cfg, atDlq, others.third)
    && c.deadLettered == |atDlq.store.dlq|
    && c.inFlight == (if summary then |to.store.pending| else 0)
    && c.queued + c.inFlight == if c.inFlight <= |atLength.store.stream| then |atLength.store.stream| else c.inFlight
  }

  /** An error of its first two commands ends it; one of the third is caught. */
  predicate DepthCalls(before: seq<Call>, after: seq<Call>, raised: bool, summary: bool) {
    if raised then after == before + [Broke(Length)] || after == before + [Broke(DlqLength)]
    else after == if summary then before else before + [Broke(PendingSummary)]
  }

  /** depth(): three commands, between which anything may happen; only the last one's failure is caught. */
  method Depth(w: World) returns (r: Result<Counts>, ghost others: Meanwhile, summary: bool)
    requires w.Valid() && w.own == {}
    modifies w, w.redis, w.redis.monitor
    ensures w.Valid() && old(w.log) <= w.log && w.own == {}
    ensures r.Success? ==> Measured(w.cfg, old(w.sys), others, w.sys, summary, r.value)
    ensures Raises(w.turns) + Count(r.Raised?) + Count(r.Success? && !summary) == Raises(old(w.turns))
    ensures DepthCalls(old(w.redis.monitor.calls), w.redis.monitor.calls, r.Raised?, summary)
  {
    summary := false;
    var length, first := Pause(w, Length);
    others := Meanwhile(first, [], []);
    if length.Raised? {
      return Raised, others, summary;
    }
    var streamLen := |w.redis.stream|;
    var dlq, second := Pause(w, DlqLength);
    others := Meanwhile(first, second, []);
    if dlq.Raised? {
      return Raised, others, summary;
    }
    var dlqLen := |w.redis.dlq|;
    var xpending, third := Pause(w, PendingSummary);
    others := Meanwhile(first, second, third);
    summary := xpending.Success?;
    var pending := if summary then |w.redis.pending| else 0;
    r := Success(Counts(Max(0, streamLen - pending), pending, dlqLen));
  }

  /** With nothing happening in between, the clamp is idle: the counts add up to the stream. */
  lemma {:induction false} DepthOnASnapshot(cfg: Cfg, actions: seq<Action>, others: Meanwhile, to: State,
                                            summary: bool, c: Counts)
    requires Measured(cfg, Run(cfg, Init, actions), others, to, summary, c)
    requires others.second == [] && others.third == []
    ensures c.queued + c.inFlight == |to.store.stream|
  {
    Reachable(cfg, actions + others.first);
    RunConcat(cfg, Init, actions, others.first);
    PendingFitsTheStream(to.store);
  }

  /** Otherwise it may be needed: an entry added and delivered between XLEN and XPENDING. */
  lemma {:induction false} ClampMayBeNeeded(cfg: Cfg)
    ensures var others := Meanwhile([], [], [Publish("m", ""), Deliver(1, "w")]);
      var to := Run(cfg, Init, [Publish("m", ""), Deliver(1, "w")]);
      Measured(cfg, Init, others, to, true, Counts(0, 1, 0)) && |Init.store.stream| < |to.store.pending|
  {
    assert [Publish("m", ""), Deliver(1, "w")][..1] == [Publish("m", "")];
    assert [Publish("m", "")][..0] == [];
    assert Run(cfg, Init, []) == Init;
    var s := Run(cfg, Init, [Publish("m", "")]);
    assert s == PublishStep(Init, "m", "") && s.store.NextUndelivered(1);
    assert Run(cfg, Init, [Publish("m", ""), Deliver(1, "w")]) == Spawn(s, s.store.Deliver(1, "w"), 1);
    assert s.store.Deliver(1, "w").pending == map[1 := Delivery("w", 0.0)];
  }

  /** refresh_gauges: what depth() counts is exported; an error of its first two commands gets out. */
  method RefreshGauges(w: World) returns (r: Result<()>, ghost summary: bool)
    requires w.Valid() && w.own == {}
    modifies w, w.redis, w.redis.monitor
    ensures w.Valid() && old(w.log) <= w.log && w.own == {}
    ensures Raises(w.turns) + Count(r.Raised?) <= Raises(old(w.turns))
    ensures DepthCalls(old(w.redis.monitor.calls), w.redis.monitor.calls, r.Raised?, summary)
  {
    var gauges, _, measured := Depth(w);
    summary := measured;
    r := if gauges.Success? then Success(()) else Raised;
  }

  /** The other half: read, then process what was read. */
  method ReadAndProcess(w: World, settings: Config.Settings, consumer: string, batch: nat,
                        ghost cursor: EntryId, ghost from: State, ghost l: Ledger)
    returns (r: Result<()>, ghost l': Ledger)
    requires w.Valid() && w.own == {} && w.cfg == CfgOf(settings)
    requires InOrder(w.cfg, consumer, batch, from, l, cursor, w.log)
    modifies w, w.redis, w.redis.monitor, w.loop
    ensures w.Valid() && old(w.log) <= w.log && w.own == {}
    ensures InOrder(w.cfg, consumer, batch, from, l', cursor, w.log) && l'.swept == l.swept
    ensures l'.readings == l.readings + Bit(r.Success?)
    ensures Raises(w.turns) + Count(r.Raised?) <= Raises(old(w.turns))
    ensures w.redis.monitor.calls
         == old(w.redis.monitor.calls) + [if r.Success? then Ran(ReadGroup) else Broke(ReadGroup)]
  {
    hide InOrder, Raises, Run;
    w.IsARun();
    ghost var before := w.log;
    l' := l;
    var job, others := ReadNew(w, consumer, batch);
    if job.Raised? {
      StaysInOrder(w.cfg, consumer, batch, from, l, cursor, before, w.log);
      return Raised, l';
    }
    w.IsARun();
    OneMoreReading(w.cfg, consumer, batch, from, l, cursor, before, others, w.log, job.value.entries);
    l' := Ledger(l.swept, w.log, l.readings + 1);
    ghost var after := w.log;
    WorkOff(w, settings, job.value);
    StaysInOrder(w.cfg, consumer, batch, from, l', cursor, after, w.log);
    return Success(()), l';
  }

  /** asyncio.sleep returns at once for a delay that is not positive. */
  function PauseOf(seconds: real): real {
    if seconds >= 0.0 then seconds else 0.0
  }

  /** What a loop has on record: its ledger, the commands it sent, how often it looked at the flag, its pauses. */
  datatype Journal = Journal(ledger: Ledger, calls: seq<Call>, tried: nat, pauses: seq<nat>)

  /** Where and when a loop began, and what it is to do. */
  datatype Shift = Shift(consumer: string, batch: nat, errorPause: real, log: seq<Action>, calls: seq<Call>)

  /** No batch is under way, and all is as the journal says, with `owed` pauses still to come. */
  ghost predicate OnRecord(w: World, shift: Shift, j: Journal, cursor: EntryId, owed: nat)
    reads w, w.redis, w.redis.monitor
  {
    && w.Valid() && w.own == {} && shift.log <= w.log
    && InOrder(w.cfg, shift.consumer, shift.batch, Run(w.cfg, Init, shift.log), j.ledger, cursor, w.log)
    && w.redis.monitor.calls == shift.calls + j.calls
    && Tallied(j.calls, j.tried, |j.ledger.swept.rounds|, j.ledger.readings, |j.pauses| + owed)
    && Paused(w.log, |shift.log|, j.pauses, PauseOf(shift.errorPause))
  }

  /** The loop's error handler: a pause, which goes on record. */
  method Recover(w: World, errorPause: real, ghost shift: Shift, ghost j: Journal, ghost cursor: EntryId)
    returns (ghost j': Journal)
    requires OnRecord(w, shift, j, cursor, 1) && errorPause == shift.errorPause
    modifies w, w.redis
    ensures OnRecord(w, shift, j', cursor, 0) && j' == j.(pauses := j'.pauses)
    ensures |j'.pauses| == |j.pauses| + 1 && w.turns == old(w.turns)
    ensures w.log == old(w.log) + [Tick(PauseOf(errorPause))]
  {
    PausedOnceMore(w.log, |shift.log|, j.pauses, PauseOf(errorPause));
    j' := j.(pauses := j.pauses + [|w.log|]);
    ghost var log := w.log;
    w.Wait(if errorPause >= 0.0 then errorPause else 0.0);
    StaysInOrder(w.cfg, shift.consumer, shift.batch, Run(w.cfg, Init, shift.log), j.ledger, cursor, log, w.log);
  }

  /** The flag was not set: a sweep, or an error and its pause. */
  method SweepTurn(w: World, settings: Config.Settings, consumer: string, batch: nat, errorPause: real,
                   cursor: EntryId, ghost shift: Shift, ghost j: Journal)
    returns (r: Result<EntryId>, ghost j': Journal)
    requires OnRecord(w, shift, j, cursor, 0) && w.cfg == CfgOf(settings)
    requires shift.consumer == consumer && shift.batch == batch && shift.errorPause == errorPause
    requires Due(Tries(j.calls)) == AutoClaim
    modifies w, w.redis, w.redis.monitor, w.loop
    ensures OnRecord(w, shift, j', if r.Success? then r.value else cursor, 0) && j'.tried == j.tried + 1
    ensures Due(Tries(j'.calls)) == if r.Success? then ReadGroup else AutoClaim
    ensures |j'.pauses| + Raises(w.turns) <= |j.pauses| + Raises(old(w.turns))
  {
    ghost var log, l, call := w.log, j.ledger, Ran(AutoClaim);
    r, l := SweepAndProcess(w, settings, consumer, batch, cursor, Run(w.cfg, Init, shift.log), j.ledger);
    call := if r.Success? then Ran(AutoClaim) else Broke(AutoClaim);
    TriedOnce(j.calls, call, j.tried, |j.ledger.swept.rounds|, j.ledger.readings, |j.pauses|);
    PausedStill(log, w.log, |shift.log|, j.pauses, PauseOf(errorPause));
    Associate(shift.calls, j.calls, [call]);
    j' := Journal(l, j.calls + [call], j.tried + 1, j.pauses);
    if r.Raised? {
      j' := Recover(w, errorPause, shift, j', cursor);
    }
  }

  /** The flag was still not set: a read and the gauges, or an error and its pause. */
  method ReadTurn(w: World, settings: Config.Settings, consumer: string, batch: nat, errorPause: real,
                  ghost cursor: EntryId, ghost shift: Shift, ghost j: Journal)
    returns (ghost j': Journal)
    requires OnRecord(w, shift, j, cursor, 0) && w.cfg == CfgOf(settings)
    requires shift.consumer == consumer && shift.batch == batch && shift.errorPause == errorPause
    requires Due(Tries(j.calls)) == ReadGroup
    modifies w, w.redis, w.redis.monitor, w.loop
    ensures OnRecord(w, shift, j', cursor, 0) && j'.tried == j.tried + 1
    ensures Due(Tries(j'.calls)) == AutoClaim
    ensures |j'.pauses| + Raises(w.turns) <= |j.pauses| + Raises(old(w.turns))
  {
    ghost var log, l, call := w.log, j.ledger, Ran(ReadGroup);
    var done;
    done, l := ReadAndProcess(w, settings, consumer, batch, cursor, Run(w.cfg, Init, shift.log), j.ledger);
    call := if done.Success? then Ran(ReadGroup) else Broke(ReadGroup);
    TriedOnce(j.calls, call, j.tried, |j.ledger.swept.rounds|, j.ledger.readings, |j.pauses|);
    PausedStill(log, w.log, |shift.log|, j.pauses, PauseOf(errorPause));
    Associate(shift.calls, j.calls, [call]);
    j' := Journal(l, j.calls + [call], j.tried + 1, j.pauses);
    if done.Success? {
      done, j' := GaugesTurn(w, shift, j', cursor);
    }
    if done.Raised? {
      j' := Recover(w, errorPause, shift, j', cursor);
    }
  }

  /** refresh_gauges, whose commands go on record too where they raise. */
  method GaugesTurn(w: World, ghost shift: Shift, ghost j: Journal, ghost cursor: EntryId)
    returns (r: Result<()>, ghost j': Journal)
    requires OnRecord(w, shift, j, cursor, 0) && Due(Tries(j.calls)) == AutoClaim
    modifies w, w.redis, w.redis.monitor
    ensures OnRecord(w, shift, j', cursor, Bit(r.Raised?)) && j' == j.(calls := j'.calls)
    ensures Due(Tries(j'.calls)) == AutoClaim
    ensures Raises(w.turns) + Count(r.Raised?) <= Raises(old(w.turns))
  {
    ghost var log, summary := w.log, true;
    r, summary := RefreshGauges(w);
    StaysInOrder(w.cfg, shift.consumer, shift.batch, Run(w.cfg, Init, shift.log), j.ledger, cursor, log, w.log);
    PausedStill(log, w.log, |shift.log|, j.pauses, PauseOf(shift.errorPause));
    j' := j;
    if r.Raised? || !summary {
      ghost var calls := w.redis.monitor.calls;
      ghost var call := calls[|calls| - 1];
      NotATry(j.calls, call, j.tried, |j.ledger.swept.rounds|, j.ledger.readings, |j.pauses|);
      Associate(shift.calls, j.calls, [call]);
      j' := j.(calls := j.calls + [call]);
    }
  }

  lemma FirstPage(w: World, shift: Shift) returns (j: Journal)
    requires w.Valid() && w.own == {} && shift.log == w.log && shift.calls == w.redis.monitor.calls
    ensures OnRecord(w, shift, j, 0, 0) && j == Journal(j.ledger, [], 0, []) && Due(Tries(j.calls)) == AutoClaim
  {
    TrailIsARun(w.cfg, w.trail, w.log);
    j := Journal(Ledger(Swept(Sweeper(w.sys, 0), [], w.log), w.log, 0), [], 0, []);
    InOrderAtStart(w.cfg, shift.consumer, shift.batch, w.log);
  }

  /** The loop itself: turn by turn, until the flag is seen. */
  method TakeTurns(w: World, settings: Config.Settings, consumer: string, batch: nat, errorPause: real, checks: nat,
                   ghost shift: Shift)
    returns (reclaimCursor: EntryId, ghost j: Journal)
    requires w.Valid() && w.own == {} && w.cfg == CfgOf(settings)
    requires shift == Shift(consumer, batch, errorPause, w.log, w.redis.monitor.calls)
    modifies w, w.redis, w.redis.monitor, w.loop
    ensures OnRecord(w, shift, j, reclaimCursor, 0) && j.tried == checks
    ensures |j.pauses| + Raises(w.turns) <= Raises(old(w.turns))
  {
    hide OnRecord, Run, Tries, Due, Raises;
    reclaimCursor := 0;
    var left := checks;
    j := FirstPage(w, shift);
    while left > 0
      invariant OnRecord(w, shift, j, reclaimCursor, 0) && j.tried + left == checks
      invariant left > 0 ==> Due(Tries(j.calls)) == AutoClaim
      invariant |j.pauses| + Raises(w.turns) <= Raises(old(w.turns))
    {
      left := left - 1;
      var next;
      next, j := SweepTurn(w, settings, consumer, batch, errorPause, reclaimCursor, shift, j);
      if next.Raised? {
        continue;
      }
      reclaimCursor := next.value;
      if left == 0 {
        break;
      }
      left := left - 1;
      j := ReadTurn(w, settings, consumer, batch, errorPause, reclaimCursor, shift, j);
    }
  }

  /**
    The loop of run(): reclaim and process, then read and process, until the
    shutdown flag is seen. `checks` is how often the flag is read before it is
    set. An error from Redis costs a pause and keeps the reclaim cursor. When the
    loop ends, every handler it started has ended and all it did is a run of the
    machine, so nothing published has been lost. It has sent, or tried to send, one
    XAUTOCLAIM or XREADGROUP for each check, in turn, and no more; an error means
    that an await raised, and for each there is a pause of its own. The run is those
    sweeps, each from where the one before left the cursor, with `rounds` in between
    and `rest` at the end; so an entry stale at the start is reached in as many
    sweeps as there were pending ids up to it, and one that went stale later in the
    sweeps it takes to come around to it. An entry that nobody had been given is,
    once the reads asked for as many as were waiting up to it.
   */
  method RunLoop(w: World, settings: Config.Settings, consumer: string, batch: nat, errorPause: real, checks: nat)
    returns (ghost rounds: seq<seq<Action>>, ghost rest: seq<Action>, ghost readings: nat, ghost pauses: seq<nat>)
    requires w.Valid() && w.own == {} && w.cfg == CfgOf(settings)
    modifies w, w.redis, w.redis.monitor, w.loop
    ensures w.Valid() && old(w.log) <= w.log && w.own == {}
    ensures w.sys == Run(w.cfg, Init, w.log) && NonePublishedLost(w.sys)
    ensures SentInTurn(old(w.redis.monitor.calls), w.redis.monitor.calls, checks, |rounds|, readings, |pauses|)
    ensures Paused(w.log, |old(w.log)|, pauses, PauseOf(errorPause))
    ensures |pauses| + Raises(w.turns) <= Raises(old(w.turns))
    ensures w.sys == Run(w.cfg, Sweeps(w.cfg, consumer, batch, Sweeper(old(w.sys), 0), rounds).s, rest)
    ensures batch > 0 ==> StaleOnesReached(w.cfg, old(w.sys), w.sys, |rounds|)
    ensures batch > 0 ==> LateOnesReached(w.cfg, consumer, batch, old(w.sys), rounds, w.sys)
    ensures WaitingOnesDelivered(old(w.sys.store), w.sys.store, readings * batch)
  {
    w.IsARun();
    ghost var shift := Shift(consumer, batch, errorPause, w.log, w.redis.monitor.calls);
    ghost var j;
    var cursor;
    cursor, j := TakeTurns(w, settings, consumer, batch, errorPause, checks, shift);
    w.IsARun();
    rounds, rest := j.ledger.swept.rounds, SinceSwept(j.ledger.swept, w.log);
    readings, pauses := j.ledger.readings, j.pauses;
    LoopResults(w.cfg, consumer, batch, shift.log, j.ledger, cursor, w.log);
    SentSince(shift.calls, j.calls, checks, |rounds|, readings, |pauses|);
  }
}
