/**
  Ingest and delivery over one Redis: requests and workers interleave command by
  command, and either may stop or die at any of them. What ingest appends is what
  the delivery protocol calls published, so it is not lost.
 */
module EndToEnd {
  import opened RedisStore
  import opened Protocol
  import opened Invariants
  import opened NoLoss
  import Ingest

  /** The workers' side and the requests in flight; they share the store of `sys`. */
  datatype Service = Service(sys: State, api: Ingest.Api)

  /** A worker, the clock or anything else acts; or a request arrives, runs its next command, or stops. */
  datatype Happening = Work(action: Action) | Ask(command: Ingest.ApiAction)

  const NewService := Service(Init, Ingest.NewApi(EmptyStore))

  /** The event the request's next command appends, if it does. */
  predicate Appends(ttl: real, api: Ingest.Api, a: Ingest.ApiAction) {
    a.Command? && Ingest.CanCommand(ttl, api, a.r) && api.requests[a.r].claimed
  }

  /** Publishing is done by requests alone; the clock is part of Work. */
  function ServiceStep(cfg: Cfg, ttl: real, s: Service, what: Happening): Service {
    match what
    case Work(a) => if a.Publish? then s else s.(sys := Step(cfg, s.sys, a))
    case Ask(a) =>
      if a.Pass? then s
      else
        var api := Ingest.ApiStep(ttl, s.api.(store := s.sys.store), a);
        if Appends(ttl, s.api, a) then
          var e := s.api.requests[a.r].todo[0];
          Service(PublishStep(s.sys, e.mid, e.body), api)
        else Service(s.sys.(store := api.store), api)
  }

  function ServiceRun(cfg: Cfg, ttl: real, run: seq<Happening>): Service {
    if run == [] then NewService
    else ServiceStep(cfg, ttl, ServiceRun(cfg, ttl, run[..|run| - 1]), run[|run| - 1])
  }

  /** Nothing in delivery reads the dedup keys. */
  lemma DedupIsNotRead(cfg: Cfg, s: State, dedup: map<Mid, real>)
    requires Inv(cfg, s) && NonePublishedLost(s)
    ensures var s' := s.(store := s.store.(dedup := dedup)); Inv(cfg, s') && NonePublishedLost(s')
  {
    var s' := s.(store := s.store.(dedup := dedup));
    forall h | h in s.handlers ensures HandlerOk(s'.store, s'.handlers[h]) {
      assert HandlerOk(s.store, s.handlers[h]);
    }
    forall m | m in s'.hist.published ensures Safe(s', m) {
      assert Safe(s, m);
      if s.hist.confirmed[m] == 0 && !InDlq(s.store.dlq, m) {
        var id :| LiveCopy(s, m, id);
        assert LiveCopy(s', m, id);
      }
    }
  }

  /** A request's command either appends its event or changes a dedup key at most; Redis is shared. */
  lemma AskChanges(cfg: Cfg, ttl: real, s: Service, a: Ingest.ApiAction)
    requires !a.Pass?
    ensures var s' := ServiceStep(cfg, ttl, s, Ask(a));
      && s'.api.store == s'.sys.store
      && if Appends(ttl, s.api, a) then
           var e := s.api.requests[a.r].todo[0];
           s'.sys == PublishStep(s.sys, e.mid, e.body) && s'.api.appended == s.api.appended + multiset{e.mid}
         else
           && s'.sys == s.sys.(store := s.sys.store.(dedup := s'.sys.store.dedup))
           && s'.api.appended == s.api.appended
  {
  }

  /** The invariant of delivery, nothing lost, and what was appended is what was published. */
  ghost predicate Sound(cfg: Cfg, s: Service) {
    Inv(cfg, s.sys) && NonePublishedLost(s.sys) && s.api.appended == s.sys.hist.published
  }

  lemma WorkKeepsSound(cfg: Cfg, s: State, a: Action)
    requires Inv(cfg, s) && NonePublishedLost(s) && !a.Publish?
    ensures var s' := Step(cfg, s, a);
      Inv(cfg, s') && NonePublishedLost(s') && s'.hist.published == s.hist.published
  {
    StepKeepsInv(cfg, s, a);
    if Enabled(cfg, s, a) {
      if a.Go? {
        OwnOutline(cfg, s, a.h);
      } else {
        OthersOutline(cfg, s, a);
      }
      forall m | m in s.hist.published ensures Safe(Step(cfg, s, a), m) {
        StepKeepsSafe(cfg, s, a, m);
      }
    }
  }

  lemma PublishKeepsSound(cfg: Cfg, s: State, m: Mid, body: string)
    requires Inv(cfg, s) && NonePublishedLost(s)
    ensures var s' := PublishStep(s, m, body); Inv(cfg, s') && NonePublishedLost(s')
  {
    var s' := PublishStep(s, m, body);
    assert s' == Step(cfg, s, Publish(m, body));
    StepKeepsInv(cfg, s, Publish(m, body));
    forall k | k in s'.hist.published ensures Safe(s', k) {
      if k in s.hist.published {
        StepKeepsSafe(cfg, s, Publish(m, body), k);
      } else {
        PublishMakesSafe(cfg, s, m, body);
      }
    }
  }

  lemma {:induction false} ServiceIsSound(cfg: Cfg, ttl: real, run: seq<Happening>)
    ensures Sound(cfg, ServiceRun(cfg, ttl, run))
  {
    if run == [] { return; }
    var before, what := run[..|run| - 1], run[|run| - 1];
    var s := ServiceRun(cfg, ttl, before);
    ServiceIsSound(cfg, ttl, before);
    match what
    case Work(a) =>
      if !a.Publish? {
        WorkKeepsSound(cfg, s.sys, a);
      }
    case Ask(a) =>
      if !a.Pass? {
        AskChanges(cfg, ttl, s, a);
        if Appends(ttl, s.api, a) {
          PublishKeepsSound(cfg, s.sys, s.api.requests[a.r].todo[0].mid, s.api.requests[a.r].todo[0].body);
        } else {
          DedupIsNotRead(cfg, s.sys, ServiceStep(cfg, ttl, s, what).sys.store.dedup);
        }
      }
  }

  /**
    End to end, with no premise on timing: at every moment of every run of requests
    and workers, an id that ingest has appended has an entry Redis will still
    deliver and nobody has replaced, or is in the dead-letter stream, or dispatch
    has returned True for it. Every published id came from such an append.
   */
  lemma {:induction false} AcceptedIsNotLost(cfg: Cfg, ttl: real, run: seq<Happening>, m: Mid)
    ensures var s := ServiceRun(cfg, ttl, run);
      && (m in s.api.appended ==> Safe(s.sys, m))
      && s.api.appended[m] == s.sys.hist.published[m]
  {
    ServiceIsSound(cfg, ttl, run);
  }
}
