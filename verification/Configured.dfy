/**
  The guarantees in terms of the settings themselves (app/config.py): the seconds,
  milliseconds and counts an operator writes down. And what `handle` comes to when
  nobody interferes, outcome by outcome, as a change of the store alone.
 */
module Configured {
  import opened RedisStore
  import opened Protocol
  import opened Invariants
  import opened Config
  import Claims
  import Copies
  import OneCopy
  import Reclaim

  // ----- what the settings promise -----

  /** MAX_RETRIES + 1 attempts, and one where it is negative. */
  function Attempts(settings: Settings): nat {
    if settings.maxRetries >= 0 then settings.maxRetries + 1 else 1
  }

  /**
    With claim timing, an id whose completion was recorded is not dispatched again
    until DELIVERED_TTL_SECONDS have gone by since.
   */
  lemma {:induction false} NotResentWithin(settings: Settings, actions: seq<Action>, h: Hid)
    requires ClaimTimelyRun(CfgOf(settings), actions)
    requires var s := Run(CfgOf(settings), Init, actions);
      h in s.handlers && (s.handlers[h].pc.Post? || s.handlers[h].pc.Posting?)
    ensures var s := Run(CfgOf(settings), Init, actions);
      var m := s.handlers[h].event.mid;
      m in s.hist.doneAt ==> s.store.now >= s.hist.doneAt[m] + settings.deliveredTtlSeconds as real
  {
    Claims.NoResendAfterConfirmation(CfgOf(settings), actions, h);
  }

  /**
    With idle timing, published once and no death on the id: a dead letter has cost
    exactly MAX_RETRIES + 1 dispatches, all of them rejected, and carries that count
    (1 and 1 for a negative setting); and there is never a second outcome.
   */
  lemma {:induction false} DeadLetteredAfter(settings: Settings, actions: seq<Action>, m: Mid)
    requires OneCopy.TimelyAndUndisturbed(CfgOf(settings), actions, m)
    ensures var s := Run(CfgOf(settings), Init, actions);
      && (forall e :: e in s.store.dlq && e.mid == m ==>
            && s.hist.posts[m] == s.hist.rejected[m] == Attempts(settings) == e.retry
            && s.hist.confirmed[m] == 0)
  {
    var s := Run(CfgOf(settings), Init, actions);
    OneCopy.ExactlyOneOutcome(CfgOf(settings), actions, m);
    RetryRange(CfgOf(settings), actions);
    forall e | e in s.store.dlq && e.mid == m
      ensures s.hist.posts[m] == s.hist.rejected[m] == Attempts(settings) == e.retry && s.hist.confirmed[m] == 0
    {
      assert InDlq(s.store.dlq, m);
      OneCopy.DeadMidsMember(s.store.dlq, m);
    }
  }

  /** With idle timing: at most MAX_RETRIES + 1 dispatches for each publication and each late death. */
  lemma {:induction false} AttemptsAtMost(settings: Settings, actions: seq<Action>, m: Mid)
    requires IdleTimelyRun(CfgOf(settings), actions)
    ensures var s := Run(CfgOf(settings), Init, actions);
      s.hist.posts[m] <= Attempts(settings) * (s.hist.published[m] + s.hist.lateDeaths[m])
  {
    Copies.AttemptBound(CfgOf(settings), actions, m);
  }

  /** Successive deliveries of one entry are CLAIM_MIN_IDLE_MS apart. */
  lemma {:induction false} RedeliveredAfter(settings: Settings, actions: seq<Action>, id: EntryId, i: nat)
    requires var times := TimesOf(Run(CfgOf(settings), Init, actions).hist, id); i + 1 < |times|
    ensures var times := TimesOf(Run(CfgOf(settings), Init, actions).hist, id);
      1000.0 * (times[i + 1] - times[i]) >= settings.claimMinIdleMs as real
  {
    Reclaim.DeliveriesHold(CfgOf(settings), actions);
  }

  // ----- handle, undisturbed -----

  lemma RunFirst(cfg: Cfg, s: State, a: Action, rest: seq<Action>)
    ensures Run(cfg, s, [a] + rest) == Run(cfg, Step(cfg, s, a), rest)
  {
    Reclaim.RunConcat(cfg, s, [a], rest);
    assert [a][..0] == [];
    assert Run(cfg, s, []) == s;
    assert Run(cfg, s, [a]) == Step(cfg, s, a);
  }

  /** The handler is about to call begin_delivery, and the server accepts both lifetimes. */
  predicate Starting(settings: Settings, s: State, h: Hid) {
    && h in s.handlers && s.handlers[h].pc.SetNx?
    && settings.ClaimTtlSeconds() > 0 && settings.deliveredTtlSeconds > 0
  }

  /** The handler is gone, the others are where they were, and `store` is what Redis holds. */
  predicate LeavesBehind(s: State, h: Hid, s': State, store: Store) {
    s'.handlers == s.handlers - {h} && s'.store == store
  }

  /** One command, taken apart. */
  lemma Goes(cfg: Cfg, s: State, h: Hid)
    requires h in s.handlers && !s.handlers[h].pc.Posting? && !Refused(cfg, s.handlers[h].pc)
    ensures var hd, s' := s.handlers[h], Step(cfg, s, Go(h));
      && s'.store == Effect(cfg, s.store, hd)
      && s'.handlers == (match After(s.store, hd)
                           case Finished => s.handlers - {h}
                           case Continue(pc) => s.handlers[h := Move(cfg, s.store, hd, pc)])
  {
  }

  /** XACK and XDEL. */
  lemma Acks(cfg: Cfg, s: State, h: Hid, why: Reason)
    requires h in s.handlers && s.handlers[h].pc == XAck(why)
    ensures var id := s.handlers[h].entry;
      LeavesBehind(s, h, Run(cfg, s, [Go(h), Go(h)]),
                   s.store.(pending := s.store.pending - {id}, stream := s.store.stream - {id}))
  {
    var t := Step(cfg, s, Go(h));
    Goes(cfg, s, h);
    Goes(cfg, t, h);
    RunFirst(cfg, s, Go(h), [Go(h)]);
    RunFirst(cfg, t, Go(h), []);
    assert [Go(h)] + [Go(h)] == [Go(h), Go(h)];
    assert [Go(h)] + [] == [Go(h)];
    assert t.handlers - {h} == s.handlers - {h};
  }

  /** Someone has delivered it: the entry goes, and nothing else changes. */
  lemma {:induction false} SkippedUndisturbed(settings: Settings, s: State, h: Hid)
    requires Starting(settings, s, h)
    requires var m := s.handlers[h].event.mid; s.store.Live(m) && s.store.claims[m].value.Done?
    ensures var id := s.handlers[h].entry;
      LeavesBehind(s, h, Run(CfgOf(settings), s, [Go(h), Go(h), Go(h), Go(h)]),
                   s.store.(pending := s.store.pending - {id}, stream := s.store.stream - {id}))
  {
    var cfg := CfgOf(settings);
    var t := Step(cfg, s, Go(h));
    var u := Step(cfg, t, Go(h));
    Goes(cfg, s, h);
    Goes(cfg, t, h);
    Acks(cfg, u, h, AlreadySent);
    RunFirst(cfg, s, Go(h), [Go(h), Go(h), Go(h)]);
    RunFirst(cfg, t, Go(h), [Go(h), Go(h)]);
    assert [Go(h)] + [Go(h), Go(h), Go(h)] == [Go(h), Go(h), Go(h), Go(h)];
    assert [Go(h)] + [Go(h), Go(h)] == [Go(h), Go(h), Go(h)];
    assert u.handlers - {h} == s.handlers - {h};
  }

  /** Someone else is at it: nothing changes, and the entry stays pending. */
  lemma {:induction false} DeferredUndisturbed(settings: Settings, s: State, h: Hid)
    requires Starting(settings, s, h)
    requires var m := s.handlers[h].event.mid; s.store.Live(m) && s.store.claims[m].value.InFlight?
    ensures LeavesBehind(s, h, Run(CfgOf(settings), s, [Go(h), Go(h)]), s.store)
  {
    var cfg := CfgOf(settings);
    var t := Step(cfg, s, Go(h));
    Goes(cfg, s, h);
    Goes(cfg, t, h);
    RunFirst(cfg, s, Go(h), [Go(h)]);
    RunFirst(cfg, t, Go(h), []);
    assert [Go(h)] + [Go(h)] == [Go(h), Go(h)];
    assert [Go(h)] + [] == [Go(h)];
    assert t.handlers - {h} == s.handlers - {h};
  }

  /** The key is free: it is claimed, and dispatch is entered. */
  lemma Wins(settings: Settings, s: State, h: Hid)
    requires Starting(settings, s, h) && !s.store.Live(s.handlers[h].event.mid)
    ensures var hd, t := s.handlers[h], Run(CfgOf(settings), s, [Go(h), Go(h)]);
      && t.store == s.store.(claims := s.store.claims[hd.event.mid := Claim(InFlight, s.store.now
                                                                 + settings.ClaimTtlSeconds() as real)])
      && t.handlers == s.handlers[h := hd.(pc := Posting, wonAt := s.store.now)]
  {
    var cfg := CfgOf(settings);
    var t := Step(cfg, s, Go(h));
    Goes(cfg, s, h);
    Goes(cfg, t, h);
    RunFirst(cfg, s, Go(h), [Go(h)]);
    RunFirst(cfg, t, Go(h), []);
    assert [Go(h)] + [Go(h)] == [Go(h), Go(h)];
    assert [Go(h)] + [] == [Go(h)];
  }

  /** And it answers. */
  lemma Answers(settings: Settings, s: State, h: Hid, ok: bool)
    requires Starting(settings, s, h) && !s.store.Live(s.handlers[h].event.mid)
    ensures var cfg, hd := CfgOf(settings), s.handlers[h];
      var t := Run(cfg, s, [Go(h), Go(h), Answer(h, ok)]);
      && t.store == s.store.(claims := s.store.claims[hd.event.mid := Claim(InFlight, s.store.now
                                                                 + settings.ClaimTtlSeconds() as real)])
      && t.handlers == s.handlers[h := AfterAnswer(cfg, hd.(pc := Posting, wonAt := s.store.now), ok)]
  {
    var cfg, hd := CfgOf(settings), s.handlers[h];
    var t := Run(cfg, s, [Go(h), Go(h)]);
    Wins(settings, s, h);
    assert [Go(h), Go(h), Answer(h, ok)][..2] == [Go(h), Go(h)];
    assert Run(cfg, s, [Go(h), Go(h), Answer(h, ok)]) == AnswerStep(cfg, t, h, ok);
  }

  lemma Completes(cfg: Cfg, s: State, h: Hid)
    requires h in s.handlers && s.handlers[h].pc.Complete? && cfg.deliveredTtl > 0.0
    ensures var id, m := s.handlers[h].entry, s.handlers[h].event.mid;
      LeavesBehind(s, h, Run(cfg, s, [Go(h), Go(h), Go(h)]),
                   s.store.(pending := s.store.pending - {id}, stream := s.store.stream - {id},
                            claims := s.store.claims[m := Claim(Done, s.store.now + cfg.deliveredTtl)]))
  {
    var t := Step(cfg, s, Go(h));
    Goes(cfg, s, h);
    Acks(cfg, t, h, Sent);
    RunFirst(cfg, s, Go(h), [Go(h), Go(h)]);
    assert [Go(h)] + [Go(h), Go(h)] == [Go(h), Go(h), Go(h)];
    assert t.handlers - {h} == s.handlers - {h};
  }

  lemma GivesUp(cfg: Cfg, s: State, h: Hid)
    requires h in s.handlers && s.handlers[h].pc.Park?
    ensures var id, e := s.handlers[h].entry, s.handlers[h].event;
      LeavesBehind(s, h, Run(cfg, s, [Go(h), Go(h), Go(h), Go(h)]),
                   s.store.(pending := s.store.pending - {id}, stream := s.store.stream - {id},
                            claims := s.store.claims - {e.mid}, dlq := s.store.dlq + [e]))
  {
    var t := Step(cfg, s, Go(h));
    var u := Step(cfg, t, Go(h));
    Goes(cfg, s, h);
    Goes(cfg, t, h);
    Acks(cfg, u, h, Parked);
    RunFirst(cfg, s, Go(h), [Go(h), Go(h), Go(h)]);
    RunFirst(cfg, t, Go(h), [Go(h), Go(h)]);
    assert [Go(h)] + [Go(h), Go(h), Go(h)] == [Go(h), Go(h), Go(h), Go(h)];
    assert [Go(h)] + [Go(h), Go(h)] == [Go(h), Go(h), Go(h)];
    assert u.handlers - {h} == s.handlers - {h};
  }

  lemma Republishes(cfg: Cfg, s: State, h: Hid)
    requires h in s.handlers && s.handlers[h].pc.Requeue?
    ensures var id, e, next := s.handlers[h].entry, s.handlers[h].event, s.store.lastId + 1;
      LeavesBehind(s, h, Run(cfg, s, [Go(h), Go(h), Go(h)]),
                   s.store.(pending := s.store.pending - {id}, lastId := next,
                            stream := s.store.stream[next := Json(e)] - {id}))
  {
    var t := Step(cfg, s, Go(h));
    Goes(cfg, s, h);
    Acks(cfg, t, h, Requeued);
    RunFirst(cfg, s, Go(h), [Go(h), Go(h)]);
    assert [Go(h)] + [Go(h), Go(h)] == [Go(h), Go(h), Go(h)];
    assert t.handlers - {h} == s.handlers - {h};
  }

  lemma TriesAgain(cfg: Cfg, s: State, h: Hid)
    requires h in s.handlers && s.handlers[h].pc.Sleep?
    ensures var id, e, next := s.handlers[h].entry, s.handlers[h].event, s.store.lastId + 1;
      LeavesBehind(s, h, Run(cfg, s, [Go(h), Go(h), Go(h), Go(h), Go(h)]),
                   s.store.(pending := s.store.pending - {id}, lastId := next, claims := s.store.claims - {e.mid},
                            stream := s.store.stream[next := Json(e)] - {id}))
  {
    var t := Step(cfg, s, Go(h));
    var u := Step(cfg, t, Go(h));
    Goes(cfg, s, h);
    Goes(cfg, t, h);
    Republishes(cfg, u, h);
    RunFirst(cfg, s, Go(h), [Go(h), Go(h), Go(h), Go(h)]);
    RunFirst(cfg, t, Go(h), [Go(h), Go(h), Go(h)]);
    assert [Go(h)] + [Go(h), Go(h), Go(h), Go(h)] == [Go(h), Go(h), Go(h), Go(h), Go(h)];
    assert [Go(h)] + [Go(h), Go(h), Go(h)] == [Go(h), Go(h), Go(h), Go(h)];
    assert u.handlers - {h} == s.handlers - {h};
  }

  /** The claim of a handler that began and ended is no trace of it. */
  lemma NoTrace(claims: map<Mid, Claim>, m: Mid, ours: Claim, last: Claim, handlers: map<Hid, Handler>, h: Hid,
                hd: Handler)
    ensures claims[m := ours] - {m} == claims - {m} && claims[m := ours][m := last] == claims[m := last]
    ensures handlers[h := hd] - {h} == handlers - {h}
  {
  }

  /** Delivered: the marker stands for DELIVERED_TTL_SECONDS from now, and the entry goes. */
  lemma {:induction false} DeliveredUndisturbed(settings: Settings, s: State, h: Hid)
    requires Starting(settings, s, h) && !s.store.Live(s.handlers[h].event.mid)
    ensures var id, m := s.handlers[h].entry, s.handlers[h].event.mid;
      LeavesBehind(s, h, Run(CfgOf(settings), s, [Go(h), Go(h), Answer(h, true)] + [Go(h), Go(h), Go(h)]),
                   s.store.(pending := s.store.pending - {id}, stream := s.store.stream - {id},
                            claims := s.store.claims[m := Claim(Done, s.store.now
                                                                      + settings.deliveredTtlSeconds as real)]))
  {
    hide Run;
    var cfg, m := CfgOf(settings), s.handlers[h].event.mid;
    var t := Run(cfg, s, [Go(h), Go(h), Answer(h, true)]);
    Answers(settings, s, h, true);
    Completes(cfg, t, h);
    Reclaim.RunConcat(cfg, s, [Go(h), Go(h), Answer(h, true)], [Go(h), Go(h), Go(h)]);
    NoTrace(s.store.claims, m, t.store.claims[m], Claim(Done, s.store.now + settings.deliveredTtlSeconds as real),
            s.handlers, h, t.handlers[h]);
  }

  /** Rejected for the last time: the event with its new count is dead-lettered, the claim and the entry go. */
  lemma {:induction false} ParkedUndisturbed(settings: Settings, s: State, h: Hid)
    requires Starting(settings, s, h) && !s.store.Live(s.handlers[h].event.mid)
    requires s.handlers[h].event.retry >= settings.maxRetries
    ensures var id, e := s.handlers[h].entry, s.handlers[h].event;
      LeavesBehind(s, h, Run(CfgOf(settings), s, [Go(h), Go(h), Answer(h, false)] + [Go(h), Go(h), Go(h), Go(h)]),
                   s.store.(pending := s.store.pending - {id}, stream := s.store.stream - {id},
                            claims := s.store.claims - {e.mid}, dlq := s.store.dlq + [e.(retry := e.retry + 1)]))
  {
    hide Run;
    var cfg, m := CfgOf(settings), s.handlers[h].event.mid;
    var t := Run(cfg, s, [Go(h), Go(h), Answer(h, false)]);
    Answers(settings, s, h, false);
    GivesUp(cfg, t, h);
    Reclaim.RunConcat(cfg, s, [Go(h), Go(h), Answer(h, false)], [Go(h), Go(h), Go(h), Go(h)]);
    NoTrace(s.store.claims, m, t.store.claims[m], t.store.claims[m], s.handlers, h, t.handlers[h]);
  }

  /** Rejected with retries left: a new entry has the event with its new count, the claim and the old entry go. */
  lemma {:induction false} RequeuedUndisturbed(settings: Settings, s: State, h: Hid)
    requires Starting(settings, s, h) && !s.store.Live(s.handlers[h].event.mid)
    requires s.handlers[h].event.retry < settings.maxRetries
    ensures var id, e, next := s.handlers[h].entry, s.handlers[h].event, s.store.lastId + 1;
      LeavesBehind(s, h, Run(CfgOf(settings), s,
                             [Go(h), Go(h), Answer(h, false)] + [Go(h), Go(h), Go(h), Go(h), Go(h)]),
                   s.store.(pending := s.store.pending - {id}, claims := s.store.claims - {e.mid}, lastId := next,
                            stream := s.store.stream[next := Json(e.(retry := e.retry + 1))] - {id}))
  {
    hide Run;
    var cfg, m := CfgOf(settings), s.handlers[h].event.mid;
    var t := Run(cfg, s, [Go(h), Go(h), Answer(h, false)]);
    Answers(settings, s, h, false);
    TriesAgain(cfg, t, h);
    Reclaim.RunConcat(cfg, s, [Go(h), Go(h), Answer(h, false)], [Go(h), Go(h), Go(h), Go(h), Go(h)]);
    NoTrace(s.store.claims, m, t.store.claims[m], t.store.claims[m], s.handlers, h, t.handlers[h]);
  }
}
