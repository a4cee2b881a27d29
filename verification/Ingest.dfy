/**
  Ingest (app/main.py:137-165 with app/dedup.py): claim each id, then append it.
  A command that fails, or a process that dies, stops the loop; one that stops
  between the claim and the append leaves an id claimed but not queued.
 */
module Ingest {
  import opened RedisStore
  import opened Results
  import Config

  /** An event as extracted, reduced to what ingest reads. */
  datatype Incoming = Incoming(mid: Mid, body: string)

  datatype End = Finished | Stopped | StoppedAfterClaim(orphan: Mid)

  datatype Outcome = Outcome(store: Store, appended: seq<Incoming>, duplicates: nat, end: End)

  function Queued(e: Incoming): Payload {
    Json(Event(e.mid, 0, e.body))
  }

  /** One request when `budget` commands succeed before the next one does not. */
  function Ingested(st: Store, ttl: real, events: seq<Incoming>, budget: nat): Outcome
    decreases |events|
  {
    if events == [] then Outcome(st, [], 0, Finished)
    else if budget == 0 || ttl <= 0.0 then Outcome(st, [], 0, Stopped)
    else
      var e := events[0];
      if st.Seen(e.mid) then
        var rest := Ingested(st, ttl, events[1..], budget - 1);
        rest.(duplicates := rest.duplicates + 1)
      else if budget == 1 then Outcome(st.SetSeen(e.mid, ttl), [], 0, StoppedAfterClaim(e.mid))
      else
        var rest := Ingested(st.SetSeen(e.mid, ttl).XAdd(Queued(e)), ttl, events[1..], budget - 2);
        rest.(appended := [e] + rest.appended)
  }

  /** How often each id occurs. */
  function Mids(events: seq<Incoming>): multiset<Mid> {
    if events == [] then multiset{} else multiset{events[0].mid} + Mids(events[1..])
  }

  lemma {:induction false} MidsConcat(xs: seq<Incoming>, ys: seq<Incoming>)
    ensures Mids(xs + ys) == Mids(xs) + Mids(ys)
  {
    if xs == [] {
      assert xs + ys == ys;
    } else {
      assert (xs + ys)[1..] == xs[1..] + ys;
      MidsConcat(xs[1..], ys);
    }
  }

  function Orphaned(end: End): multiset<Mid> {
    if end.StoppedAfterClaim? then multiset{end.orphan} else multiset{}
  }

  /** The ids this request claimed: the ones it appended and the one it may have orphaned. */
  function ClaimedBy(o: Outcome): multiset<Mid> {
    Mids(o.appended) + Orphaned(o.end)
  }

  /** What a request did to the keys: its own claims, and nothing else. */
  ghost predicate RequestClaims(before: Store, o: Outcome, ttl: real) {
    ClaimsExactly(before, o.store, ClaimedBy(o), ttl)
  }

  /** Nothing but the given ids was claimed, each once, afresh and for a full TTL. */
  ghost predicate ClaimsExactly(before: Store, after: Store, mids: multiset<Mid>, ttl: real) {
    && after.now == before.now
    && (forall m :: m in mids ==>
          mids[m] == 1 && !before.Seen(m) && m in after.dedup && after.dedup[m] == after.now + ttl)
    && (forall m :: m !in mids ==> SameKey(before, after, m))
  }

  predicate SameKey(before: Store, after: Store, m: Mid) {
    (m in after.dedup <==> m in before.dedup) && (m in after.dedup ==> after.dedup[m] == before.dedup[m])
  }

  lemma ClaimsCompose(before: Store, mid: Store, after: Store, m: Mid, rest: multiset<Mid>, ttl: real)
    requires ttl > 0.0 && !before.Seen(m)
    requires mid.now == before.now && mid.dedup == before.dedup[m := before.now + ttl]
    requires ClaimsExactly(mid, after, rest, ttl)
    ensures ClaimsExactly(before, after, multiset{m} + rest, ttl)
  {
    assert mid.Seen(m);
    forall k | k !in multiset{m} + rest ensures SameKey(before, after, k) {
      assert SameKey(mid, after, k);
    }
    assert m !in rest && SameKey(mid, after, m);
  }

  lemma OneMoreAppended(rest: Outcome, e: Incoming)
    ensures ClaimedBy(rest.(appended := [e] + rest.appended)) == multiset{e.mid} + ClaimedBy(rest)
  {
    assert ([e] + rest.appended)[1..] == rest.appended;
  }

  lemma AppendClaims(st: Store, ttl: real, e: Incoming, rest: Outcome)
    requires ttl > 0.0 && !st.Seen(e.mid)
    requires ClaimsExactly(st.SetSeen(e.mid, ttl).XAdd(Queued(e)), rest.store, ClaimedBy(rest), ttl)
    ensures RequestClaims(st, rest.(appended := [e] + rest.appended), ttl)
  {
    OneMoreAppended(rest, e);
    ClaimsCompose(st, st.SetSeen(e.mid, ttl).XAdd(Queued(e)), rest.store, e.mid, ClaimedBy(rest), ttl);
  }

  lemma NothingClaimed(st: Store, ttl: real, end: End)
    requires !end.StoppedAfterClaim?
    ensures RequestClaims(st, Outcome(st, [], 0, end), ttl)
  {
  }

  lemma OnlyTheOrphanClaimed(st: Store, ttl: real, m: Mid)
    requires ttl > 0.0 && !st.Seen(m)
    ensures RequestClaims(st, Outcome(st.SetSeen(m, ttl), [], 0, StoppedAfterClaim(m)), ttl)
  {
    assert Mids([]) + multiset{m} == multiset{m};
  }

  lemma DuplicateClaims(st: Store, ttl: real, rest: Outcome)
    requires RequestClaims(st, rest, ttl)
    ensures RequestClaims(st, rest.(duplicates := rest.duplicates + 1), ttl)
  {
  }

  /** A request claims each of its ids at most once, and nothing else. */
  lemma {:induction false} IngestClaims(st: Store, ttl: real, events: seq<Incoming>, budget: nat)
    ensures RequestClaims(st, Ingested(st, ttl, events, budget), ttl)
    decreases |events|
  {
    if events == [] || budget == 0 || ttl <= 0.0 {
      NothingClaimed(st, ttl, if events == [] then Finished else Stopped);
    } else if st.Seen(events[0].mid) {
      IngestClaims(st, ttl, events[1..], budget - 1);
      DuplicateClaims(st, ttl, Ingested(st, ttl, events[1..], budget - 1));
    } else if budget == 1 {
      OnlyTheOrphanClaimed(st, ttl, events[0].mid);
    } else {
      MoreClaims(st, ttl, events, budget);
    }
  }

  lemma {:induction false} MoreClaims(st: Store, ttl: real, events: seq<Incoming>, budget: nat)
    requires ttl > 0.0 && events != [] && budget > 1 && !st.Seen(events[0].mid)
    ensures RequestClaims(st, Ingested(st, ttl, events, budget), ttl)
    decreases |events|, 0
  {
    var e := events[0];
    var st1 := st.SetSeen(e.mid, ttl).XAdd(Queued(e));
    IngestClaims(st1, ttl, events[1..], budget - 2);
    AppendClaims(st, ttl, e, Ingested(st1, ttl, events[1..], budget - 2));
  }

  /** A key seen before a request is seen after it. */
  lemma SeenStays(before: Store, after: Store, mids: multiset<Mid>, ttl: real, m: Mid)
    requires ttl > 0.0 && ClaimsExactly(before, after, mids, ttl) && (before.Seen(m) || m in mids)
    ensures after.Seen(m)
  {
    if m !in mids {
      assert SameKey(before, after, m);
    }
  }

  /** The first event of a request that goes past it is claimed in the end. */
  lemma FirstIsClaimed(st: Store, ttl: real, events: seq<Incoming>, budget: nat)
    requires events != [] && ttl > 0.0 && budget > 0 && (st.Seen(events[0].mid) || budget > 1)
    ensures Ingested(st, ttl, events, budget).store.Seen(events[0].mid)
  {
    var o := Ingested(st, ttl, events, budget);
    IngestClaims(st, ttl, events, budget);
    assert !st.Seen(events[0].mid) ==> o.appended[0] == events[0] && events[0].mid in Mids(o.appended);
    SeenStays(st, o.store, ClaimedBy(o), ttl, events[0].mid);
  }

  /** A request that finishes leaves every id of its payload claimed, and counts every event. */
  lemma {:induction false} FinishedClaimsAll(st: Store, ttl: real, events: seq<Incoming>, budget: nat)
    ensures var o := Ingested(st, ttl, events, budget);
      o.end.Finished? ==>
        && (forall i :: 0 <= i < |events| ==> o.store.Seen(events[i].mid))
        && |o.appended| + o.duplicates == |events|
    decreases |events|
  {
    if events == [] || budget == 0 || ttl <= 0.0 { return; }
    if st.Seen(events[0].mid) {
      FirstIsClaimed(st, ttl, events, budget);
      FinishedClaimsAll(st, ttl, events[1..], budget - 1);
    } else if budget > 1 {
      FirstIsClaimed(st, ttl, events, budget);
      FinishedClaimsAll(st.SetSeen(events[0].mid, ttl).XAdd(Queued(events[0])), ttl, events[1..], budget - 2);
    }
  }

  // ----- the code -----

  /** SET NX EX in one command: True if the id was already claimed; it raises if the server refuses the expiry. */
  method IsDuplicate(redis: Redis, settings: Config.Settings, m: Mid) returns (r: Result<bool>)
    modifies redis
    ensures r.Raised? <==> settings.dedupTtlSeconds <= 0
    ensures r.Success? ==> (r.value <==> m in old(redis.dedup) && old(redis.now) < old(redis.dedup)[m])
    ensures redis.dedup == if r == Success(false)
                           then old(redis.dedup)[m := old(redis.now) + settings.dedupTtlSeconds as real]
                           else old(redis.dedup)
    ensures r.Success? ==> redis.View() == old(redis.View()).SetSeen(m, settings.dedupTtlSeconds as real)
    ensures r.Raised? ==> redis.View() == old(redis.View())
  {
    var reply := redis.SetSeen(m, settings.dedupTtlSeconds as real);
    if reply.InvalidExpiry? {
      return Raised;
    }
    return Success(!reply.Newly?);
  }

  /** `rest` after a part that already appended and dropped something. */
  function After(appended: seq<Incoming>, duplicates: nat, rest: Outcome): Outcome {
    rest.(appended := appended + rest.appended, duplicates := duplicates + rest.duplicates)
  }

  /** _ingest, when `budget` commands succeed before one fails or the process dies. */
  method IngestEvents(redis: Redis, settings: Config.Settings, events: seq<Incoming>, budget: nat)
    returns (accepted: nat, duplicates: nat, end: End)
    modifies redis
    ensures var o := Ingested(old(redis.View()), settings.dedupTtlSeconds as real, events, budget);
      && redis.View() == o.store && end == o.end
      && accepted == |o.appended| && duplicates == o.duplicates
  {
    accepted, duplicates := 0, 0;
    var left := budget;
    ghost var ttl := settings.dedupTtlSeconds as real;
    ghost var appended: seq<Incoming> := [];
    ghost var whole := Ingested(redis.View(), ttl, events, budget);
    for i := 0 to |events|
      invariant accepted == |appended|
      invariant whole == After(appended, duplicates, Ingested(redis.View(), ttl, events[i..], left))
    {
      var event := events[i];
      assert events[i..][0] == event && events[i..][1..] == events[i + 1..];
      if left == 0 {
        return accepted, duplicates, Stopped;
      }
      left := left - 1;
      var duplicate := IsDuplicate(redis, settings, event.mid);
      if duplicate.Raised? {
        return accepted, duplicates, Stopped;
      }
      if duplicate.value {
        duplicates := duplicates + 1;
        continue;
      }
      if left == 0 {
        return accepted, duplicates, StoppedAfterClaim(event.mid);
      }
      left := left - 1;
      var _ := redis.XAdd(Queued(event));
      accepted := accepted + 1;
      ghost var rest := Ingested(redis.View(), ttl, events[i + 1..], left);
      assert appended + ([event] + rest.appended) == (appended + [event]) + rest.appended;
      appended := appended + [event];
    }
    end := Finished;
  }

  // ----- redelivery of one payload -----

  /** Meta sends the payload again after `delay`; this time `budget` commands succeed. */
  datatype Try = Try(delay: real, budget: nat)

  datatype Sofar = Sofar(store: Store, appended: seq<Incoming>, orphans: multiset<Mid>, finished: bool)

  function AfterTry(before: Sofar, ttl: real, events: seq<Incoming>, try: Try): Sofar {
    var o := Ingested(before.store.Elapse(try.delay), ttl, events, try.budget);
    Sofar(o.store, before.appended + o.appended, before.orphans + Orphaned(o.end), before.finished || o.end.Finished?)
  }

  function Tries(st: Store, ttl: real, events: seq<Incoming>, tries: seq<Try>): Sofar {
    if tries == [] then Sofar(st, [], multiset{}, false)
    else AfterTry(Tries(st, ttl, events, tries[..|tries| - 1]), ttl, events, tries[|tries| - 1])
  }

  predicate TimePasses(tries: seq<Try>) {
    forall i :: 0 <= i < |tries| ==> tries[i].delay >= 0.0
  }

  function AllClaimed(r: Sofar): multiset<Mid> {
    Mids(r.appended) + r.orphans
  }

  /** Every id claimed so far was free before and claimed once; its key outlives the first TTL. */
  ghost predicate TriesOk(st: Store, ttl: real, r: Sofar, events: seq<Incoming>) {
    && r.store.now >= st.now
    && (forall m :: m in AllClaimed(r) ==> AllClaimed(r)[m] == 1 && KeptUntil(r.store, m, st.now + ttl))
    && (forall m :: m !in AllClaimed(r) ==> SameKey(st, r.store, m))
    && (r.finished ==> forall i :: 0 <= i < |events| ==> events[i].mid in AllClaimed(r) || st.Seen(events[i].mid))
  }

  predicate KeptUntil(st: Store, m: Mid, time: real) {
    m in st.dedup && st.dedup[m] >= time
  }

  /** Claims add up from one try to the next. */
  lemma ClaimsAddUp(st: Store, started: Store, after: Store, past: multiset<Mid>, more: multiset<Mid>, ttl: real)
    requires ttl > 0.0 && st.now <= started.now < st.now + ttl
    requires forall m :: m in past ==> past[m] == 1 && KeptUntil(started, m, st.now + ttl)
    requires forall m :: m !in past ==> SameKey(st, started, m)
    requires ClaimsExactly(started, after, more, ttl)
    ensures forall m :: m in past + more ==> (past + more)[m] == 1 && KeptUntil(after, m, st.now + ttl)
    ensures forall m :: m !in past + more ==> SameKey(st, after, m)
  {
    forall m | m in past + more ensures (past + more)[m] == 1 && KeptUntil(after, m, st.now + ttl) {
      if m in past {
        assert started.Seen(m);
        assert SameKey(started, after, m);
      }
    }
    forall m | m !in past + more ensures SameKey(st, after, m) {
      assert SameKey(st, started, m) && SameKey(started, after, m);
    }
  }

  lemma OneMoreTry(st: Store, ttl: real, before: Sofar, events: seq<Incoming>, try: Try)
    requires ttl > 0.0 && try.delay >= 0.0 && TriesOk(st, ttl, before, events)
    requires before.store.now + try.delay < st.now + ttl
    ensures TriesOk(st, ttl, AfterTry(before, ttl, events, try), events)
  {
    var started := before.store.Elapse(try.delay);
    var o := Ingested(started, ttl, events, try.budget);
    var after := AfterTry(before, ttl, events, try);
    IngestClaims(started, ttl, events, try.budget);
    MidsConcat(before.appended, o.appended);
    assert AllClaimed(after) == AllClaimed(before) + ClaimedBy(o);
    forall m | m !in AllClaimed(before) ensures SameKey(st, started, m) {
      assert SameKey(st, before.store, m);
    }
    forall m | m in AllClaimed(before) ensures KeptUntil(started, m, st.now + ttl) {
      assert KeptUntil(before.store, m, st.now + ttl);
    }
    ClaimsAddUp(st, started, o.store, AllClaimed(before), ClaimedBy(o), ttl);
    if o.end.Finished? {
      FinishedTryCovers(st, ttl, started, events, try.budget, AllClaimed(after));
    }
  }

  lemma FinishedTryCovers(st: Store, ttl: real, started: Store, events: seq<Incoming>, budget: nat,
                          claimed: multiset<Mid>)
    requires ttl > 0.0 && st.now <= started.now && Ingested(started, ttl, events, budget).end.Finished?
    requires forall m :: m !in claimed ==> SameKey(st, Ingested(started, ttl, events, budget).store, m)
    ensures forall i :: 0 <= i < |events| ==> events[i].mid in claimed || st.Seen(events[i].mid)
  {
    var o := Ingested(started, ttl, events, budget);
    FinishedClaimsAll(started, ttl, events, budget);
    IngestClaims(started, ttl, events, budget);
    forall i | 0 <= i < |events| ensures events[i].mid in claimed || st.Seen(events[i].mid) {
      assert o.store.Seen(events[i].mid);
      assert events[i].mid !in claimed ==> SameKey(st, o.store, events[i].mid);
    }
  }

  lemma {:induction false} TriesHold(st: Store, ttl: real, events: seq<Incoming>, tries: seq<Try>)
    requires ttl > 0.0 && TimePasses(tries)
    requires Tries(st, ttl, events, tries).store.now < st.now + ttl
    ensures TriesOk(st, ttl, Tries(st, ttl, events, tries), events)
  {
    if tries != [] {
      var n := |tries| - 1;
      var before := Tries(st, ttl, events, tries[..n]);
      IngestClaims(before.store.Elapse(tries[n].delay), ttl, events, tries[n].budget);
      TriesHold(st, ttl, events, tries[..n]);
      OneMoreTry(st, ttl, before, events, tries[n]);
    }
  }

  /**
    Ingest under failure. Over any attempts on one payload within one dedup TTL,
    each stopping after any number of commands, every id is appended at most once
    and never both appended and orphaned. Once an attempt has succeeded, the ids
    free at the start that are missing from the stream are exactly the orphans:
    those claimed by an attempt that stopped before its append.
   */
  lemma {:induction false} IngestUnderFailure(st: Store, ttl: real, events: seq<Incoming>, tries: seq<Try>, m: Mid)
    requires ttl > 0.0 && TimePasses(tries)
    requires Tries(st, ttl, events, tries).store.now < st.now + ttl
    ensures var r := Tries(st, ttl, events, tries);
      && Mids(r.appended)[m] + r.orphans[m] <= 1
      && (r.finished && m in Mids(events) && !st.Seen(m) ==> (m !in Mids(r.appended) <==> m in r.orphans))
  {
    var r := Tries(st, ttl, events, tries);
    TriesHold(st, ttl, events, tries);
    assert m !in AllClaimed(r) ==> AllClaimed(r)[m] == 0;
    if m in Mids(events) {
      var i := PositionOf(events, m);
    }
  }

  lemma {:induction false} PositionOf(events: seq<Incoming>, m: Mid) returns (i: nat)
    requires m in Mids(events)
    ensures i < |events| && events[i].mid == m
  {
    if events[0].mid == m {
      i := 0;
    } else {
      i := PositionOf(events[1..], m);
      i := i + 1;
    }
  }

  /** So a redelivery answered with success may still never queue the event. */
  lemma SuccessMayHideALoss(st: Store, ttl: real, e: Incoming, rest: nat)
    requires ttl > 0.0 && !st.Seen(e.mid) && rest >= 1
    ensures var r := Tries(st, ttl, [e], [Try(0.0, 1), Try(0.0, rest)]);
      r.finished && r.appended == [] && e.mid in r.orphans
  {
    var tries := [Try(0.0, 1), Try(0.0, rest)];
    assert tries[..1] == [Try(0.0, 1)];
    assert [Try(0.0, 1)][..0] == [];
    var none := Sofar(st, [], multiset{}, false);
    assert Tries(st, ttl, [e], []) == none;
    LossStepByStep(st, ttl, e, rest);
  }

  lemma LossStepByStep(st: Store, ttl: real, e: Incoming, rest: nat)
    requires ttl > 0.0 && !st.Seen(e.mid) && rest >= 1
    ensures var one := AfterTry(Sofar(st, [], multiset{}, false), ttl, [e], Try(0.0, 1));
      && one.appended == [] && one.orphans == multiset{e.mid}
      && AfterTry(one, ttl, [e], Try(0.0, rest)) == one.(finished := true)
  {
    var started := st.Elapse(0.0);
    var claimed := started.SetSeen(e.mid, ttl);
    assert started == st;
    assert Ingested(st, ttl, [e], 1) == Outcome(claimed, [], 0, StoppedAfterClaim(e.mid));
    assert claimed.Elapse(0.0) == claimed && claimed.Seen(e.mid);
    assert [e][1..] == [];
    assert Ingested(claimed, ttl, [], rest - 1) == Outcome(claimed, [], 0, Finished);
    assert Ingested(claimed, ttl, [e], rest) == Outcome(claimed, [], 1, Finished);
  }

  // ----- what an error-free request appends -----

  /** The events whose id was free and has not occurred earlier in the payload. */
  function FirstUnclaimed(st: Store, events: seq<Incoming>): seq<Incoming> {
    if events == [] then []
    else
      var n := |events| - 1;
      FirstUnclaimed(st, events[..n])
      + if !st.Seen(events[n].mid) && events[n].mid !in Mids(events[..n]) then [events[n]] else []
  }

  /** One more event after an error-free request. */
  function ThenOne(o: Outcome, ttl: real, e: Incoming): Outcome {
    if o.store.Seen(e.mid) then o.(duplicates := o.duplicates + 1)
    else o.(store := o.store.SetSeen(e.mid, ttl).XAdd(Queued(e)), appended := o.appended + [e])
  }

  lemma {:induction false} IngestOneMore(st: Store, ttl: real, events: seq<Incoming>, e: Incoming, budget: nat)
    requires ttl > 0.0 && budget >= 2 * |events| + 2
    ensures Ingested(st, ttl, events + [e], budget) == ThenOne(Ingested(st, ttl, events, budget), ttl, e)
    ensures Ingested(st, ttl, events, budget).end.Finished?
    decreases |events|
  {
    if events == [] {
      assert [] + [e] == [e] && [e][1..] == [];
      assert Ingested(st.SetSeen(e.mid, ttl).XAdd(Queued(e)), ttl, [], budget - 2).appended == [];
    } else {
      assert (events + [e])[1..] == events[1..] + [e];
      if st.Seen(events[0].mid) {
        IngestOneMore(st, ttl, events[1..], e, budget - 1);
      } else {
        IngestOneMore(st.SetSeen(events[0].mid, ttl).XAdd(Queued(events[0])), ttl, events[1..], e, budget - 2);
      }
    }
  }

  lemma OneMoreMid(events: seq<Incoming>, e: Incoming)
    ensures Mids(events + [e]) == Mids(events) + multiset{e.mid}
  {
    MidsConcat(events, [e]);
    assert [e][1..] == [];
  }

  /** Every event accepted or dropped, first occurrences of free ids appended, and just the payload's ids claimed. */
  ghost predicate Filtered(st: Store, events: seq<Incoming>, o: Outcome) {
    && o.end.Finished?
    && o.appended == FirstUnclaimed(st, events)
    && |o.appended| + o.duplicates == |events|
    && (forall m :: o.store.Seen(m) <==> st.Seen(m) || m in Mids(events))
  }

  lemma ThenOneIsFiltered(st: Store, ttl: real, events: seq<Incoming>, o: Outcome, e: Incoming)
    requires ttl > 0.0 && Filtered(st, events, o)
    ensures Filtered(st, events + [e], ThenOne(o, ttl, e))
  {
    assert (events + [e])[..|events|] == events;
    OneMoreMid(events, e);
    assert forall m :: ThenOne(o, ttl, e).store.Seen(m) <==> o.store.Seen(m) || m == e.mid;
  }

  /**
    Ingest as a filter. When no command fails, a request appends, in order,
    exactly the first occurrences of ids that were free, accepts or drops every
    event, and leaves just those ids newly claimed.
   */
  lemma {:induction false} IngestIsAFilter(st: Store, ttl: real, events: seq<Incoming>, budget: nat)
    requires ttl > 0.0 && budget >= 2 * |events|
    ensures var o := Ingested(st, ttl, events, budget);
      && o.end.Finished?
      && o.appended == FirstUnclaimed(st, events)
      && |o.appended| + o.duplicates == |events|
      && (forall m :: o.store.Seen(m) <==> st.Seen(m) || m in Mids(events))
    decreases |events|
  {
    if events == [] { return; }
    var n := |events| - 1;
    IngestIsAFilter(st, ttl, events[..n], budget);
    IngestOneMore(st, ttl, events[..n], events[n], budget);
    assert events == events[..n] + [events[n]];
    ThenOneIsFiltered(st, ttl, events[..n], Ingested(st, ttl, events[..n], budget), events[n]);
  }

  /** The appended events stand at the end of the stream, in order, and no other entry changed. */
  ghost predicate Extends(before: Store, after: Store, appended: seq<Incoming>) {
    && after.lastId == before.lastId + |appended|
    && (forall id :: before.lastId < id <= after.lastId ==>
          id in after.stream && after.stream[id] == Queued(appended[id - before.lastId - 1]))
    && (forall id :: id <= before.lastId || id > after.lastId ==>
          && (id in after.stream <==> id in before.stream)
          && (id in after.stream ==> after.stream[id] == before.stream[id]))
  }

  lemma {:induction false} IngestExtendsTheStream(st: Store, ttl: real, events: seq<Incoming>, budget: nat)
    ensures var o := Ingested(st, ttl, events, budget); Extends(st, o.store, o.appended)
    decreases |events|
  {
    if events == [] || budget == 0 || ttl <= 0.0 { return; }
    var e := events[0];
    if st.Seen(e.mid) {
      IngestExtendsTheStream(st, ttl, events[1..], budget - 1);
    } else if budget > 1 {
      var st1 := st.SetSeen(e.mid, ttl).XAdd(Queued(e));
      var rest := Ingested(st1, ttl, events[1..], budget - 2);
      IngestExtendsTheStream(st1, ttl, events[1..], budget - 2);
      ExtendsCompose(st, st1, rest.store, e, rest.appended);
    }
  }

  lemma ExtendsCompose(before: Store, mid: Store, after: Store, e: Incoming, rest: seq<Incoming>)
    requires mid.lastId == before.lastId + 1 && mid.stream == before.stream[mid.lastId := Queued(e)]
    requires Extends(mid, after, rest)
    ensures Extends(before, after, [e] + rest)
  {
    forall id | before.lastId < id <= after.lastId
      ensures id in after.stream && after.stream[id] == Queued(([e] + rest)[id - before.lastId - 1])
    {
      if id > mid.lastId {
        assert after.stream[id] == Queued(rest[id - mid.lastId - 1]);
      }
    }
  }

  // ----- requests running at the same time -----

  /** A request between two commands; `claimed`: the key of its first event was just set. */
  datatype Request = Request(payload: seq<Incoming>, todo: seq<Incoming>, claimed: bool)

  /** `wins` records when each id's key was newly set. */
  datatype Api = Api(store: Store, requests: map<nat, Request>, wins: map<Mid, seq<real>>,
                     appended: multiset<Mid>, orphaned: multiset<Mid>)

  datatype ApiAction = Arrive(r: nat, events: seq<Incoming>) | Command(r: nat) | Stop(r: nat) | Pass(d: real)

  function NewApi(st: Store): Api {
    Api(st, map[], map[], multiset{}, multiset{})
  }

  function WinsOf(api: Api, m: Mid): seq<real> {
    if m in api.wins then api.wins[m] else []
  }

  /** The next command of request `r`: SET NX, then XADD if it set the key. */
  function CommandStep(ttl: real, api: Api, r: nat): Api
    requires r in api.requests && api.requests[r].todo != []
  {
    var q := api.requests[r];
    var e := q.todo[0];
    if q.claimed then
      api.(store := api.store.XAdd(Queued(e)),
           requests := api.requests[r := Request(q.payload, q.todo[1..], false)],
           appended := api.appended + multiset{e.mid})
    else if api.store.Seen(e.mid) then api.(requests := api.requests[r := Request(q.payload, q.todo[1..], false)])
    else
      api.(store := api.store.SetSeen(e.mid, ttl),
           requests := api.requests[r := Request(q.payload, q.todo, true)],
           wins := api.wins[e.mid := WinsOf(api, e.mid) + [api.store.now]])
  }

  /** There is a next command, and the server does not refuse its expiry. */
  predicate CanCommand(ttl: real, api: Api, r: nat) {
    r in api.requests && api.requests[r].todo != [] && (api.requests[r].claimed || ttl > 0.0)
  }

  predicate Holding(q: Request, m: Mid) {
    q.claimed && q.todo != [] && q.todo[0].mid == m
  }

  function ApiStep(ttl: real, api: Api, a: ApiAction): Api {
    match a
    case Arrive(r, events) =>
      if r in api.requests then api else api.(requests := api.requests[r := Request(events, events, false)])
    case Command(r) => if CanCommand(ttl, api, r) then CommandStep(ttl, api, r) else api
    case Stop(r) =>
      if r !in api.requests then api
      else
        var q := api.requests[r];
        api.(requests := api.requests - {r},
             orphaned := api.orphaned + if q.claimed && q.todo != [] then multiset{q.todo[0].mid} else multiset{})
    case Pass(d) => if d < 0.0 then api else api.(store := api.store.Elapse(d))
  }

  function ApiRun(ttl: real, api: Api, actions: seq<ApiAction>): Api {
    if actions == [] then api
    else ApiStep(ttl, ApiRun(ttl, api, actions[..|actions| - 1]), actions[|actions| - 1])
  }

  /** Requests that hold the freshly set key of `m`. */
  function Holders(requests: map<nat, Request>, m: Mid): set<nat> {
    set r | r in requests && Holding(requests[r], m)
  }

  ghost predicate WinsSpaced(times: seq<real>, ttl: real, now: real) {
    && (forall i :: 0 <= i < |times| - 1 ==> times[i + 1] - times[i] >= ttl)
    && (|times| > 0 ==> times[|times| - 1] <= now)
  }

  /** The key's time runs from its last win. */
  ghost predicate KeyFollowsWins(ttl: real, api: Api, m: Mid) {
    var times := WinsOf(api, m);
    && WinsSpaced(times, ttl, api.store.now)
    && (|times| > 0 ==> m in api.store.dedup && api.store.dedup[m] == times[|times| - 1] + ttl)
  }

  /** Every win is appended, orphaned, or still in a request's hands. */
  ghost predicate WinsAccounted(api: Api, m: Mid) {
    |WinsOf(api, m)| == api.appended[m] + api.orphaned[m] + |Holders(api.requests, m)|
  }

  lemma HoldersUpdate(requests: map<nat, Request>, r: nat, q: Request, m: Mid)
    ensures |Holders(requests[r := q], m)|
         == |Holders(requests, m)| - (if r in Holders(requests, m) then 1 else 0) + if Holding(q, m) then 1 else 0
  {
    var others := Holders(requests, m) - {r};
    var after := Holders(requests[r := q], m);
    assert forall k :: k in after <==> k in others || (k == r && Holding(q, m));
    if Holding(q, m) {
      assert after == others + {r};
    } else {
      assert after == others;
    }
  }

  lemma HoldersRemove(requests: map<nat, Request>, r: nat, m: Mid)
    ensures |Holders(requests - {r}, m)| == |Holders(requests, m)| - if r in Holders(requests, m) then 1 else 0
  {
    assert Holders(requests - {r}, m) == Holders(requests, m) - {r};
  }

  lemma CommandKeepsWins(ttl: real, api: Api, r: nat, m: Mid)
    requires r in api.requests && api.requests[r].todo != []
    requires KeyFollowsWins(ttl, api, m) && WinsAccounted(api, m)
    ensures KeyFollowsWins(ttl, CommandStep(ttl, api, r), m) && WinsAccounted(CommandStep(ttl, api, r), m)
  {
    var q := api.requests[r];
    HoldersUpdate(api.requests, r, CommandStep(ttl, api, r).requests[r], m);
  }

  lemma ApiStepKeepsWins(ttl: real, api: Api, a: ApiAction, m: Mid)
    requires KeyFollowsWins(ttl, api, m) && WinsAccounted(api, m)
    ensures KeyFollowsWins(ttl, ApiStep(ttl, api, a), m) && WinsAccounted(ApiStep(ttl, api, a), m)
  {
    match a
    case Arrive(r, events) =>
      if r !in api.requests {
        HoldersUpdate(api.requests, r, Request(events, events, false), m);
      }
    case Command(r) =>
      if CanCommand(ttl, api, r) {
        CommandKeepsWins(ttl, api, r, m);
      }
    case Stop(r) => HoldersRemove(api.requests, r, m);
    case Pass(d) =>
  }

  /**
    Interleaved requests, failing or dying at any command. Each time an id's key
    is newly set leads to one append, or one orphan, or is still in the hands of
    the request that set it; and two such times are a dedup TTL apart.
   */
  lemma {:induction false} InterleavedIngest(ttl: real, st: Store, actions: seq<ApiAction>, m: Mid)
    ensures var api := ApiRun(ttl, NewApi(st), actions);
      && |WinsOf(api, m)| == api.appended[m] + api.orphaned[m] + |Holders(api.requests, m)|
      && KeyFollowsWins(ttl, api, m)
  {
    if actions == [] {
      assert Holders(map[], m) == {};
    } else {
      InterleavedIngest(ttl, st, actions[..|actions| - 1], m);
      ApiStepKeepsWins(ttl, ApiRun(ttl, NewApi(st), actions[..|actions| - 1]), actions[|actions| - 1], m);
    }
  }

  // ----- one life of a key -----

  lemma ApiClock(ttl: real, api: Api, a: ApiAction)
    ensures ApiStep(ttl, api, a).store.now >= api.store.now
  {
  }

  lemma StepInALife(ttl: real, api: Api, a: ApiAction, m: Mid)
    requires api.store.Seen(m) && ApiStep(ttl, api, a).store.now < api.store.dedup[m]
    ensures var later := ApiStep(ttl, api, a);
      later.store.Seen(m) && later.store.dedup[m] == api.store.dedup[m] && WinsOf(later, m) == WinsOf(api, m)
  {
  }

  /** A key is not set anew while it lives. */
  lemma {:induction false} NoWinsInALife(ttl: real, api: Api, actions: seq<ApiAction>, m: Mid)
    requires api.store.Seen(m) && ApiRun(ttl, api, actions).store.now < api.store.dedup[m]
    ensures var later := ApiRun(ttl, api, actions);
      later.store.Seen(m) && later.store.dedup[m] == api.store.dedup[m] && WinsOf(later, m) == WinsOf(api, m)
  {
    if actions != [] {
      var before, a := actions[..|actions| - 1], actions[|actions| - 1];
      ApiClock(ttl, ApiRun(ttl, api, before), a);
      NoWinsInALife(ttl, api, before, m);
      StepInALife(ttl, ApiRun(ttl, api, before), a, m);
    }
  }

  lemma {:induction false} ApiRunConcat(ttl: real, api: Api, one: seq<ApiAction>, two: seq<ApiAction>)
    ensures ApiRun(ttl, api, one + two) == ApiRun(ttl, ApiRun(ttl, api, one), two)
  {
    if two == [] {
      assert one + two == one;
    } else {
      var n := |two| - 1;
      assert (one + two)[..|one + two| - 1] == one + two[..n];
      ApiRunConcat(ttl, api, one, two[..n]);
    }
  }

  /**
    From any point of a run on: what has been appended or orphaned since, and what
    is in requests' hands now, are the wins since and what was in their hands then.
   */
  lemma {:induction false} SinceAnyPoint(ttl: real, st: Store, actions: seq<ApiAction>, more: seq<ApiAction>, m: Mid)
    ensures var api := ApiRun(ttl, NewApi(st), actions);
      var later := ApiRun(ttl, api, more);
      (later.appended[m] - api.appended[m]) + (later.orphaned[m] - api.orphaned[m]) + |Holders(later.requests, m)|
      == (|WinsOf(later, m)| - |WinsOf(api, m)|) + |Holders(api.requests, m)|
  {
    InterleavedIngest(ttl, st, actions, m);
    InterleavedIngest(ttl, st, actions + more, m);
    ApiRunConcat(ttl, NewApi(st), actions, more);
  }

  lemma {:induction false} AppendsGrow(ttl: real, api: Api, actions: seq<ApiAction>, m: Mid)
    ensures var later := ApiRun(ttl, api, actions);
      later.appended[m] >= api.appended[m] && later.orphaned[m] >= api.orphaned[m]
  {
    if actions != [] {
      AppendsGrow(ttl, api, actions[..|actions| - 1], m);
      AppendsGrowByStep(ttl, ApiRun(ttl, api, actions[..|actions| - 1]), actions[|actions| - 1], m);
    }
  }

  lemma AppendsGrowByStep(ttl: real, api: Api, a: ApiAction, m: Mid)
    ensures var later := ApiStep(ttl, api, a);
      later.appended[m] >= api.appended[m] && later.orphaned[m] >= api.orphaned[m]
  {
  }

  /** The run goes on, and the key alive at `api` is still alive. */
  predicate WithinTheLife(ttl: real, api: Api, more: seq<ApiAction>, m: Mid) {
    m in api.store.dedup && ApiRun(ttl, api, more).store.now < api.store.dedup[m]
  }

  /** How often the id is appended in a continuation. */
  function AppendsIn(ttl: real, api: Api, more: seq<ApiAction>, m: Mid): int {
    var before: int, after: int := api.appended[m], ApiRun(ttl, api, more).appended[m];
    after - before
  }

  /**
    What a key's life allows, from any point of it on: at most as many appends as
    there are requests that have set the key, in this life or an earlier one, and
    not yet appended.
   */
  lemma {:induction false} AppendsInALife(ttl: real, st: Store, actions: seq<ApiAction>, more: seq<ApiAction>, m: Mid)
    requires var api := ApiRun(ttl, NewApi(st), actions); api.store.Seen(m) && WithinTheLife(ttl, api, more, m)
    ensures var api := ApiRun(ttl, NewApi(st), actions);
      0 <= AppendsIn(ttl, api, more, m) <= |Holders(api.requests, m)|
  {
    var api := ApiRun(ttl, NewApi(st), actions);
    NoWinsInALife(ttl, api, more, m);
    SinceAnyPoint(ttl, st, actions, more, m);
    AppendsGrow(ttl, api, more, m);
  }

  lemma TwoHoldersTwoAppends(ttl: real, api: Api, r: nat, q: nat, m: Mid)
    requires r != q && r in Holders(api.requests, m) && q in Holders(api.requests, m)
    ensures var later := ApiRun(ttl, api, [Command(r), Command(q)]);
      later.appended[m] == api.appended[m] + 2 && later.store.now == api.store.now
  {
    var one := ApiStep(ttl, api, Command(r));
    assert q in Holders(one.requests, m);
    ApiRunOfTwo(ttl, api, Command(r), Command(q));
  }

  lemma ApiRunOfTwo(ttl: real, api: Api, a: ApiAction, b: ApiAction)
    ensures ApiRun(ttl, api, [a, b]) == ApiStep(ttl, ApiStep(ttl, api, a), b)
  {
    assert [a, b][..1] == [a] && [a][..0] == [];
    assert ApiRun(ttl, api, []) == api;
    assert ApiRun(ttl, api, [a]) == ApiStep(ttl, api, a);
  }

  lemma {:induction false} TwoMembers(holders: set<nat>) returns (r: nat, q: nat)
    requires |holders| > 1
    ensures r != q && r in holders && q in holders
  {
    r :| r in holders;
    assert |holders - {r}| > 0;
    q :| q in holders - {r};
  }

  /**
    So from a point of a key's life on, the id is sure to be appended at most once
    if and only if at most one request has set the key and not yet appended.
   */
  lemma {:induction false} OncePerLifeWhen(ttl: real, st: Store, actions: seq<ApiAction>, m: Mid)
    requires ApiRun(ttl, NewApi(st), actions).store.Seen(m)
    ensures var api := ApiRun(ttl, NewApi(st), actions);
      (forall more :: WithinTheLife(ttl, api, more, m) ==> AppendsIn(ttl, api, more, m) <= 1)
      <==> |Holders(api.requests, m)| <= 1
  {
    var api := ApiRun(ttl, NewApi(st), actions);
    if |Holders(api.requests, m)| <= 1 {
      forall more | WithinTheLife(ttl, api, more, m) ensures AppendsIn(ttl, api, more, m) <= 1 {
        AppendsInALife(ttl, st, actions, more, m);
      }
    } else {
      var r, q := TwoMembers(Holders(api.requests, m));
      TwoHoldersTwoAppends(ttl, api, r, q, m);
      assert WithinTheLife(ttl, api, [Command(r), Command(q)], m);
      assert AppendsIn(ttl, api, [Command(r), Command(q)], m) == 2;
    }
  }

  /** A request that sets the key is the only one to hold it, unless others held it before. */
  lemma WinnerHolds(ttl: real, api: Api, r: nat, m: Mid)
    requires CanCommand(ttl, api, r) && !api.requests[r].claimed
    requires api.requests[r].todo[0].mid == m && !api.store.Seen(m)
    ensures var later := ApiStep(ttl, api, Command(r));
      later.store.Seen(m) && |Holders(later.requests, m)| == |Holders(api.requests, m)| + 1
  {
    HoldersUpdate(api.requests, r, ApiStep(ttl, api, Command(r)).requests[r], m);
  }

  /**
    So at the command that sets the key: the id is sure to be appended at most once
    in the life that begins if and only if nobody still held an earlier one.
   */
  lemma {:induction false} NewLifeIsSafeWhen(ttl: real, st: Store, actions: seq<ApiAction>, r: nat, m: Mid)
    requires var api := ApiRun(ttl, NewApi(st), actions);
      && CanCommand(ttl, api, r) && !api.requests[r].claimed
      && api.requests[r].todo[0].mid == m && !api.store.Seen(m)
    ensures var api := ApiRun(ttl, NewApi(st), actions);
      var begun := ApiStep(ttl, api, Command(r));
      && begun.store.Seen(m)
      && ((forall more :: WithinTheLife(ttl, begun, more, m) ==> AppendsIn(ttl, begun, more, m) <= 1)
          <==> Holders(api.requests, m) == {})
  {
    var api := ApiRun(ttl, NewApi(st), actions);
    WinnerHolds(ttl, api, r, m);
    assert (actions + [Command(r)])[..|actions|] == actions;
    OncePerLifeWhen(ttl, st, actions + [Command(r)], m);
  }

  const Slow := [Arrive(0, [Incoming("m", "")]), Command(0)]
  const Redelivered := [Pass(10.0), Arrive(1, [Incoming("m", "")]), Command(1)]
  const BothAppend := [Command(1), Command(0)]

  /**
    It does fail: a request sets the key and is held up for as long as the key
    lives; the redelivery finds no key, sets it again and appends; then the first
    request appends too, within the life of the second one's key.
   */
  lemma {:induction false} SlowRequestAppendsTwice(st: Store)
    requires !st.Seen("m")
    ensures var late := ApiRun(10.0, ApiRun(10.0, NewApi(st), Slow), Redelivered);
      && late.store.Seen("m") && WithinTheLife(10.0, late, BothAppend, "m")
      && AppendsIn(10.0, late, BothAppend, "m") == 2
  {
    var e := Incoming("m", "");
    ApiRunOfTwo(10.0, NewApi(st), Slow[0], Slow[1]);
    var held := ApiRun(10.0, NewApi(st), Slow);
    assert held == ApiStep(10.0, ApiStep(10.0, NewApi(st), Arrive(0, [e])), Command(0));
    assert held.requests == map[0 := Request([e], [e], true)];
    assert held.store.dedup["m"] == st.now + 10.0;
    var passed := ApiStep(10.0, held, Pass(10.0));
    var arrived := ApiStep(10.0, passed, Arrive(1, [e]));
    var late := ApiStep(10.0, arrived, Command(1));
    assert !passed.store.Seen("m");
    assert late.requests == map[0 := Request([e], [e], true), 1 := Request([e], [e], true)];
    assert Redelivered[..2] == [Pass(10.0), Arrive(1, [e])];
    ApiRunOfTwo(10.0, held, Pass(10.0), Arrive(1, [e]));
    assert ApiRun(10.0, held, Redelivered) == late;
    TwoHoldersTwoAppends(10.0, late, 1, 0, "m");
  }

  /** In the first life a run gives the id's key, the id is appended at most once, orphans included. */
  lemma {:induction false} AppendedOncePerTtl(ttl: real, st: Store, actions: seq<ApiAction>, m: Mid)
    ensures var api := ApiRun(ttl, NewApi(st), actions);
      |WinsOf(api, m)| > 0 && api.store.now < WinsOf(api, m)[0] + ttl ==> api.appended[m] + api.orphaned[m] <= 1
  {
    InterleavedIngest(ttl, st, actions, m);
    var api := ApiRun(ttl, NewApi(st), actions);
    var times := WinsOf(api, m);
    if |times| > 1 {
      assert times[1] - times[0] >= ttl;
      WinsArePast(ttl, st, actions, m, 1);
    }
  }

  lemma {:induction false} WinsArePast(ttl: real, st: Store, actions: seq<ApiAction>, m: Mid, i: nat)
    requires var api := ApiRun(ttl, NewApi(st), actions); i < |WinsOf(api, m)|
    ensures var api := ApiRun(ttl, NewApi(st), actions); WinsOf(api, m)[i] <= api.store.now
  {
    if actions != [] {
      var before, a := actions[..|actions| - 1], actions[|actions| - 1];
      OnlyNewWins(ttl, ApiRun(ttl, NewApi(st), before), a, m);
      if i < |WinsOf(ApiRun(ttl, NewApi(st), before), m)| {
        WinsArePast(ttl, st, before, m, i);
      }
    }
  }

  lemma OnlyNewWins(ttl: real, api: Api, a: ApiAction, m: Mid)
    ensures var later := ApiStep(ttl, api, a);
      && later.store.now >= api.store.now
      && (WinsOf(later, m) == WinsOf(api, m) || WinsOf(later, m) == WinsOf(api, m) + [api.store.now])
  {
  }

  // ----- one request of the machine is the code -----

  function Commands(r: nat, n: nat): seq<ApiAction> {
    if n == 0 then [] else [Command(r)] + Commands(r, n - 1)
  }

  lemma CommandFirst(ttl: real, api: Api, r: nat, n: nat)
    requires n > 0
    ensures ApiRun(ttl, api, Commands(r, n)) == ApiRun(ttl, ApiStep(ttl, api, Command(r)), Commands(r, n - 1))
  {
    ApiRunConcat(ttl, api, [Command(r)], Commands(r, n - 1));
    assert [Command(r)][..0] == [];
  }

  /** A request with nothing to do, or whose expiry is refused, stays where it is. */
  lemma {:induction false} IdleCommands(ttl: real, api: Api, r: nat, n: nat)
    requires !CanCommand(ttl, api, r)
    ensures ApiRun(ttl, api, Commands(r, n)) == api
  {
    if n > 0 {
      CommandFirst(ttl, api, r, n);
      IdleCommands(ttl, api, r, n - 1);
    }
  }

  /** Commands of one request, nobody else's in between, and then its end. */
  function Solo(ttl: real, api: Api, r: nat, budget: nat): Api {
    ApiStep(ttl, ApiRun(ttl, api, Commands(r, budget)), Stop(r))
  }

  /** The store, and what was appended and orphaned, as the outcome says. */
  predicate EndsAs(before: Api, after: Api, o: Outcome) {
    && after.store == o.store
    && after.appended == before.appended + Mids(o.appended)
    && after.orphaned == before.orphaned + Orphaned(o.end)
  }

  /** SET NX that finds the key: on to the next event. */
  lemma DuplicateCommand(ttl: real, api: Api, r: nat, budget: nat) returns (one: Api)
    requires CanCommand(ttl, api, r) && !api.requests[r].claimed && ttl > 0.0 && budget > 0
    requires api.store.Seen(api.requests[r].todo[0].mid)
    ensures Solo(ttl, api, r, budget) == Solo(ttl, one, r, budget - 1)
    ensures one == api.(requests := one.requests)
    ensures r in one.requests && one.requests[r] == Request(api.requests[r].payload, api.requests[r].todo[1..], false)
  {
    one := ApiStep(ttl, api, Command(r));
    CommandFirst(ttl, api, r, budget);
  }

  /** SET NX that wins, and then the end. */
  lemma OrphaningCommand(ttl: real, api: Api, r: nat)
    requires CanCommand(ttl, api, r) && !api.requests[r].claimed && ttl > 0.0
    requires !api.store.Seen(api.requests[r].todo[0].mid)
    ensures var m := api.requests[r].todo[0].mid;
      EndsAs(api, Solo(ttl, api, r, 1), Outcome(api.store.SetSeen(m, ttl), [], 0, StoppedAfterClaim(m)))
  {
    CommandFirst(ttl, api, r, 1);
  }

  /** SET NX that wins. */
  lemma WinFirst(ttl: real, api: Api, r: nat, budget: nat) returns (one: Api)
    requires CanCommand(ttl, api, r) && !api.requests[r].claimed && ttl > 0.0 && budget > 0
    requires !api.store.Seen(api.requests[r].todo[0].mid)
    ensures Solo(ttl, api, r, budget) == Solo(ttl, one, r, budget - 1)
    ensures one.store == api.store.SetSeen(api.requests[r].todo[0].mid, ttl)
    ensures CanCommand(ttl, one, r) && one.requests[r] == api.requests[r].(claimed := true)
    ensures one.appended == api.appended && one.orphaned == api.orphaned
  {
    one := ApiStep(ttl, api, Command(r));
    CommandFirst(ttl, api, r, budget);
  }

  /** XADD, after it. */
  lemma AppendNext(ttl: real, api: Api, r: nat, budget: nat) returns (one: Api)
    requires CanCommand(ttl, api, r) && api.requests[r].claimed && budget > 0
    ensures Solo(ttl, api, r, budget) == Solo(ttl, one, r, budget - 1)
    ensures var e := api.requests[r].todo[0];
      && one.store == api.store.XAdd(Queued(e))
      && r in one.requests && one.requests[r] == Request(api.requests[r].payload, api.requests[r].todo[1..], false)
      && one.appended == api.appended + multiset{e.mid} && one.orphaned == api.orphaned
  {
    one := ApiStep(ttl, api, Command(r));
    CommandFirst(ttl, api, r, budget);
  }

  lemma WinAndAppend(ttl: real, api: Api, r: nat, budget: nat) returns (two: Api)
    requires CanCommand(ttl, api, r) && !api.requests[r].claimed && ttl > 0.0 && budget > 1
    requires !api.store.Seen(api.requests[r].todo[0].mid)
    ensures Solo(ttl, api, r, budget) == Solo(ttl, two, r, budget - 2)
    ensures var e := api.requests[r].todo[0];
      && two.store == api.store.SetSeen(e.mid, ttl).XAdd(Queued(e))
      && r in two.requests && two.requests[r] == Request(api.requests[r].payload, api.requests[r].todo[1..], false)
      && two.appended == api.appended + multiset{e.mid} && two.orphaned == api.orphaned
  {
    var one := WinFirst(ttl, api, r, budget);
    two := AppendNext(ttl, one, r, budget - 1);
  }

  lemma OneMoreEndsAs(before: Api, two: Api, after: Api, e: Incoming, rest: Outcome)
    requires EndsAs(two, after, rest)
    requires two.appended == before.appended + multiset{e.mid} && two.orphaned == before.orphaned
    ensures EndsAs(before, after, rest.(appended := [e] + rest.appended))
  {
    assert ([e] + rest.appended)[1..] == rest.appended;
  }

  lemma NothingToDo(ttl: real, api: Api, r: nat, budget: nat)
    requires r in api.requests && !api.requests[r].claimed
    requires api.requests[r].todo == [] || ttl <= 0.0 || budget == 0
    ensures EndsAs(api, Solo(ttl, api, r, budget), Ingested(api.store, ttl, api.requests[r].todo, budget))
  {
    if budget > 0 {
      IdleCommands(ttl, api, r, budget);
    }
  }

  /**
    _ingest is one request of the machine: as many of its commands as succeed,
    with no other request's in between, and then its end, leave the store, the
    appended ids and the orphan that the code leaves.
   */
  lemma {:induction false} IngestIsARequest(ttl: real, api: Api, r: nat, budget: nat)
    requires r in api.requests && !api.requests[r].claimed
    ensures EndsAs(api, Solo(ttl, api, r, budget), Ingested(api.store, ttl, api.requests[r].todo, budget))
    decreases budget
  {
    var todo := api.requests[r].todo;
    if todo == [] || ttl <= 0.0 || budget == 0 {
      NothingToDo(ttl, api, r, budget);
    } else if api.store.Seen(todo[0].mid) {
      DuplicateFirst(ttl, api, r, budget);
    } else if budget == 1 {
      OrphaningCommand(ttl, api, r);
    } else {
      NewFirst(ttl, api, r, budget);
    }
  }

  lemma {:induction false} DuplicateFirst(ttl: real, api: Api, r: nat, budget: nat)
    requires CanCommand(ttl, api, r) && !api.requests[r].claimed && ttl > 0.0 && budget > 0
    requires api.store.Seen(api.requests[r].todo[0].mid)
    ensures EndsAs(api, Solo(ttl, api, r, budget), Ingested(api.store, ttl, api.requests[r].todo, budget))
    decreases budget, 0
  {
    var one := DuplicateCommand(ttl, api, r, budget);
    IngestIsARequest(ttl, one, r, budget - 1);
  }

  lemma {:induction false} NewFirst(ttl: real, api: Api, r: nat, budget: nat)
    requires CanCommand(ttl, api, r) && !api.requests[r].claimed && ttl > 0.0 && budget > 1
    requires !api.store.Seen(api.requests[r].todo[0].mid)
    ensures EndsAs(api, Solo(ttl, api, r, budget), Ingested(api.store, ttl, api.requests[r].todo, budget))
    decreases budget, 0
  {
    var todo := api.requests[r].todo;
    var two := WinAndAppend(ttl, api, r, budget);
    IngestIsARequest(ttl, two, r, budget - 2);
    NewThenRest(ttl, api, two, Solo(ttl, two, r, budget - 2), todo, budget);
  }

  lemma NewThenRest(ttl: real, api: Api, two: Api, after: Api, todo: seq<Incoming>, budget: nat)
    requires todo != [] && !api.store.Seen(todo[0].mid) && ttl > 0.0 && budget > 1
    requires two.store == api.store.SetSeen(todo[0].mid, ttl).XAdd(Queued(todo[0]))
    requires two.appended == api.appended + multiset{todo[0].mid} && two.orphaned == api.orphaned
    requires EndsAs(two, after, Ingested(two.store, ttl, todo[1..], budget - 2))
    ensures EndsAs(api, after, Ingested(api.store, ttl, todo, budget))
  {
    OneMoreEndsAs(api, two, after, todo[0], Ingested(two.store, ttl, todo[1..], budget - 2));
    IngestedNew(api.store, ttl, todo, budget);
  }

  /** A new event with commands to spare: it is appended, and the rest goes on from there. */
  lemma IngestedNew(st: Store, ttl: real, todo: seq<Incoming>, budget: nat)
    requires todo != [] && !st.Seen(todo[0].mid) && ttl > 0.0 && budget > 1
    ensures var rest := Ingested(st.SetSeen(todo[0].mid, ttl).XAdd(Queued(todo[0])), ttl, todo[1..], budget - 2);
      Ingested(st, ttl, todo, budget) == rest.(appended := [todo[0]] + rest.appended)
  {
  }

  // ----- nothing a request has gone past is unaccounted for -----

  /** Some request has set the key, or it was alive from before. */
  predicate Accounted(st: Store, api: Api, m: Mid) {
    |WinsOf(api, m)| > 0 || st.Seen(m)
  }

  /** How many events the request has dealt with. */
  function Gone(q: Request): int {
    |q.payload| - |q.todo|
  }

  ghost predicate RequestOk(st: Store, api: Api, q: Request) {
    && |q.todo| <= |q.payload| && q.todo == q.payload[Gone(q)..]
    && forall i :: 0 <= i < Gone(q) ==> Accounted(st, api, q.payload[i].mid)
  }

  ghost predicate RequestsOk(st: Store, api: Api) {
    && api.store.now >= st.now
    && (forall m :: api.store.Seen(m) ==> Accounted(st, api, m))
    && (forall m :: |WinsOf(api, m)| == 0 ==> SameKey(st, api.store, m))
    && (forall r :: r in api.requests ==> RequestOk(st, api, api.requests[r]))
  }

  /** A command only adds wins, and accounts for what its request goes past. */
  lemma CommandAccounts(ttl: real, st: Store, api: Api, r: nat, m: Mid)
    requires RequestsOk(st, api) && CanCommand(ttl, api, r)
    ensures var later := CommandStep(ttl, api, r);
      && (Accounted(st, api, m) ==> Accounted(st, later, m))
      && (later.store.Seen(m) ==> Accounted(st, later, m))
      && (|WinsOf(later, m)| == 0 ==> SameKey(st, later.store, m))
  {
    assert |WinsOf(api, m)| == 0 ==> SameKey(st, api.store, m);
  }

  lemma CommandKeepsItsRequest(ttl: real, st: Store, api: Api, r: nat)
    requires CanCommand(ttl, api, r) && RequestOk(st, api, api.requests[r])
    requires var m, later := api.requests[r].todo[0].mid, CommandStep(ttl, api, r);
      later.requests[r].todo != api.requests[r].todo ==> Accounted(st, later, m)
    requires forall m :: Accounted(st, api, m) ==> Accounted(st, CommandStep(ttl, api, r), m)
    ensures RequestOk(st, CommandStep(ttl, api, r), CommandStep(ttl, api, r).requests[r])
  {
    var q := api.requests[r];
    assert q.todo[0] == q.payload[Gone(q)];
  }

  lemma CommandKeepsRequestsOk(ttl: real, st: Store, api: Api, r: nat)
    requires RequestsOk(st, api) && CanCommand(ttl, api, r)
    requires api.requests[r].claimed ==> Accounted(st, api, api.requests[r].todo[0].mid)
    ensures RequestsOk(st, CommandStep(ttl, api, r))
  {
    var later := CommandStep(ttl, api, r);
    forall m
      ensures Accounted(st, api, m) ==> Accounted(st, later, m)
      ensures later.store.Seen(m) ==> Accounted(st, later, m)
      ensures |WinsOf(later, m)| == 0 ==> SameKey(st, later.store, m)
    {
      CommandAccounts(ttl, st, api, r, m);
    }
    CommandKeepsItsRequest(ttl, st, api, r);
    forall k | k in later.requests && k != r ensures RequestOk(st, later, later.requests[k]) {
      assert RequestOk(st, api, api.requests[k]);
    }
  }

  lemma OthersKeepRequestsOk(ttl: real, st: Store, api: Api, a: ApiAction)
    requires RequestsOk(st, api) && !a.Command?
    ensures RequestsOk(st, ApiStep(ttl, api, a))
  {
    var later := ApiStep(ttl, api, a);
    forall m
      ensures Accounted(st, api, m) ==> Accounted(st, later, m)
      ensures later.store.Seen(m) ==> api.store.Seen(m)
      ensures |WinsOf(later, m)| == 0 ==> SameKey(st, later.store, m)
    {
      assert |WinsOf(api, m)| == 0 ==> SameKey(st, api.store, m);
    }
    forall r | r in later.requests ensures RequestOk(st, later, later.requests[r]) {
      assert r in api.requests ==> RequestOk(st, api, api.requests[r]);
    }
  }

  lemma ApiStepKeepsRequestsOk(ttl: real, st: Store, api: Api, a: ApiAction)
    requires RequestsOk(st, api)
    requires forall m :: WinsAccounted(api, m)
    ensures RequestsOk(st, ApiStep(ttl, api, a))
  {
    if a.Command? {
      if CanCommand(ttl, api, a.r) {
        var m := api.requests[a.r].todo[0].mid;
        assert WinsAccounted(api, m);
        if api.requests[a.r].claimed {
          assert a.r in Holders(api.requests, m);
        }
        CommandKeepsRequestsOk(ttl, st, api, a.r);
      }
    } else {
      OthersKeepRequestsOk(ttl, st, api, a);
    }
  }

  lemma {:induction false} RequestsStayOk(ttl: real, st: Store, actions: seq<ApiAction>)
    ensures RequestsOk(st, ApiRun(ttl, NewApi(st), actions))
  {
    if actions != [] {
      var before := actions[..|actions| - 1];
      RequestsStayOk(ttl, st, before);
      forall m ensures WinsAccounted(ApiRun(ttl, NewApi(st), before), m) {
        InterleavedIngest(ttl, st, before, m);
      }
      ApiStepKeepsRequestsOk(ttl, st, ApiRun(ttl, NewApi(st), before), actions[|actions| - 1]);
    }
  }

  /**
    Interleaved requests: an id that a request has gone past, and so every id of a
    request that has finished, has been appended, was orphaned by a request that
    stopped, is in the hands of a request that set its key, or was claimed before.
   */
  lemma {:induction false} GonePastIsAccounted(ttl: real, st: Store, actions: seq<ApiAction>, r: nat, i: nat)
    requires var api := ApiRun(ttl, NewApi(st), actions); r in api.requests && i < Gone(api.requests[r])
    ensures var api := ApiRun(ttl, NewApi(st), actions);
      var m := api.requests[r].payload[i].mid;
      m in api.appended || m in api.orphaned || Holders(api.requests, m) != {} || st.Seen(m)
  {
    RequestsStayOk(ttl, st, actions);
    var api := ApiRun(ttl, NewApi(st), actions);
    assert RequestOk(st, api, api.requests[r]);
    InterleavedIngest(ttl, st, actions, api.requests[r].payload[i].mid);
  }
}
