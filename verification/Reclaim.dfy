/**
  Recovery by reclaiming (app/queue.py:106-134): a stale entry is reached in a
  bounded number of sweeps, and a dead handler's claim puts it off a bounded
  number of times.
 */
module Reclaim {
  import opened RedisStore
  import opened Protocol
  import opened Invariants
  import opened Timing

  // ----- coverage -----

  /** How many of the ids lie in lo..hi. */
  function Ahead<T>(ids: map<EntryId, T>, lo: nat, hi: nat): nat
    decreases hi + 1 - lo
  {
    if lo > hi then 0 else (if lo in ids then 1 else 0) + Ahead(ids, lo + 1, hi)
  }

  lemma {:induction false} AheadShrinks<T>(before: map<EntryId, T>, after: map<EntryId, T>, lo: nat, hi: nat)
    requires forall id :: id <= hi && id in after ==> id in before
    ensures Ahead(after, lo, hi) <= Ahead(before, lo, hi)
    decreases hi + 1 - lo
  {
    if lo <= hi {
      AheadShrinks(before, after, lo + 1, hi);
    }
  }

  /** One sweep adopts the entry or brings the cursor nearer to it. */
  lemma {:induction false} ScanProgress(st: Store, minIdle: real, at: EntryId, attempts: nat, count: nat, e: EntryId)
    requires at <= e <= st.lastId && st.Stale(e, minIdle)
    ensures var sweep := st.Scan(minIdle, at, attempts, count);
      || e in sweep.adopted
      || (at <= sweep.cursor <= e
          && Ahead(st.pending, sweep.cursor, e) <= Ahead(st.pending, at, e)
          && (attempts > 0 && count > 0 ==> Ahead(st.pending, sweep.cursor, e) < Ahead(st.pending, at, e)))
    decreases e - at
  {
    if at !in st.pending {
      ScanProgress(st, minIdle, at + 1, attempts, count, e);
    } else if attempts == 0 || count == 0 {
    } else if !st.Stale(at, minIdle) {
      ScanProgress(st, minIdle, at + 1, attempts - 1, count, e);
    } else if at < e {
      ScanProgress(st, minIdle, at + 1, attempts - 1, count - 1, e);
    }
  }

  lemma {:induction false} ScanAdoptsStale(st: Store, minIdle: real, at: EntryId, attempts: nat, count: nat)
    ensures var ids := st.Scan(minIdle, at, attempts, count).adopted;
      && |ids| <= count
      && (forall i :: 0 <= i < |ids| ==> at <= ids[i] && st.Stale(ids[i], minIdle))
      && (forall i, j :: 0 <= i < j < |ids| ==> ids[i] < ids[j])
    decreases st.lastId + 1 - at
  {
    if at > st.lastId {
    } else if at !in st.pending {
      ScanAdoptsStale(st, minIdle, at + 1, attempts, count);
    } else if attempts == 0 || count == 0 {
    } else if !st.Stale(at, minIdle) {
      ScanAdoptsStale(st, minIdle, at + 1, attempts - 1, count);
    } else {
      ScanAdoptsStale(st, minIdle, at + 1, attempts - 1, count - 1);
    }
  }

  // ----- the deliveries of an entry -----

  ghost predicate Spaced(times: seq<real>, gap: real) {
    forall i :: 0 <= i < |times| - 1 ==> times[i + 1] - times[i] >= gap
  }

  /** The deliveries of each entry are recorded in order and a reclaim delay apart. */
  ghost predicate DeliveriesOk(cfg: Cfg, s: State) {
    && (forall id :: id in s.hist.deliveries ==>
          id <= s.store.lastDelivered && TimesOk(cfg, s.store.now, s.hist.deliveries[id]))
    && (forall id :: id in s.store.pending ==>
          id in s.hist.deliveries && Last(s.hist.deliveries[id]) == s.store.pending[id].at)
  }

  ghost predicate TimesOk(cfg: Cfg, now: real, times: seq<real>) {
    |times| > 0 && Spaced(times, cfg.minIdle) && Last(times) <= now
  }

  function Last(times: seq<real>): real {
    if times == [] then 0.0 else times[|times| - 1]
  }

  lemma OneMoreDelivery(cfg: Cfg, now: real, past: seq<real>)
    requires past == [] || (TimesOk(cfg, now, past) && now - Last(past) >= cfg.minIdle)
    ensures TimesOk(cfg, now, past + [now]) && Last(past + [now]) == now
  {
  }

  lemma HandoutKeepsDeliveries(cfg: Cfg, s: State, a: Action, s': State)
    requires s.store.IdsOk() && DeliveriesOk(cfg, s) && OtherStep(cfg, s, a, s') && (a.Deliver? || a.Adopt?)
    ensures DeliveriesOk(cfg, s')
  {
    OneMoreDelivery(cfg, s.store.now, TimesOf(s.hist, a.id));
  }

  lemma StepKeepsDeliveries(cfg: Cfg, s: State, a: Action)
    requires Inv(cfg, s) && DeliveriesOk(cfg, s)
    ensures DeliveriesOk(cfg, Step(cfg, s, a))
  {
    if !Enabled(cfg, s, a) { return; }
    if a.Go? {
      OwnOutline(cfg, s, a.h);
    } else {
      OthersOutline(cfg, s, a);
      if a.Deliver? || a.Adopt? {
        HandoutKeepsDeliveries(cfg, s, a, Step(cfg, s, a));
      }
    }
  }

  lemma {:induction false} DeliveriesHold(cfg: Cfg, actions: seq<Action>)
    ensures DeliveriesOk(cfg, Run(cfg, Init, actions))
  {
    if actions != [] {
      var before := actions[..|actions| - 1];
      DeliveriesHold(cfg, before);
      Reachable(cfg, before);
      StepKeepsDeliveries(cfg, Run(cfg, Init, before), actions[|actions| - 1]);
    }
  }

  // ----- sweeps in a running system -----

  /** The entry was handed out again, or has left the pending list for good. */
  ghost predicate Reached(from: State, s: State, e: EntryId)
    requires e in from.hist.deliveries
  {
    || e !in s.store.pending
    || (e in s.hist.deliveries && |s.hist.deliveries[e]| > |from.hist.deliveries[e]|)
  }

  /** From one state to a later one, as seen by a delivered entry `e`. */
  ghost predicate LaterFor(s: State, s': State, e: EntryId) {
    && s.store.now <= s'.store.now && e <= s.store.lastDelivered <= s'.store.lastDelivered
    && s.store.lastId <= s'.store.lastId
    && (forall id :: id <= e && id in s'.store.pending ==> id in s.store.pending)
    && (e in s.hist.deliveries ==> e in s'.hist.deliveries && s.hist.deliveries[e] <= s'.hist.deliveries[e])
  }

  lemma StepIsLater(cfg: Cfg, s: State, a: Action, e: EntryId)
    requires Inv(cfg, s) && e <= s.store.lastDelivered
    ensures LaterFor(s, Step(cfg, s, a), e)
  {
    if !Enabled(cfg, s, a) { return; }
    if a.Go? {
      OwnOutline(cfg, s, a.h);
    } else {
      OthersOutline(cfg, s, a);
    }
  }

  lemma {:induction false} RunIsLater(cfg: Cfg, s: State, actions: seq<Action>, e: EntryId)
    requires Inv(cfg, s) && DeliveriesOk(cfg, s) && e <= s.store.lastDelivered
    ensures var s' := Run(cfg, s, actions);
      Inv(cfg, s') && DeliveriesOk(cfg, s') && LaterFor(s, s', e)
  {
    if actions != [] {
      var before, a := actions[..|actions| - 1], actions[|actions| - 1];
      RunIsLater(cfg, s, before, e);
      var mid := Run(cfg, s, before);
      StepKeepsInv(cfg, mid, a);
      StepKeepsDeliveries(cfg, mid, a);
      StepIsLater(cfg, mid, a, e);
    }
  }

  /** XAUTOCLAIM as the machine sees it: one adoption after the other, at one instant. */
  function Adopts(ids: seq<EntryId>, consumer: string): seq<Action> {
    seq(|ids|, i requires 0 <= i < |ids| => Adopt(ids[i], consumer))
  }

  lemma {:induction false} AdoptedIsReached(cfg: Cfg, s: State, ids: seq<EntryId>, consumer: string, e: EntryId)
    requires Inv(cfg, s) && DeliveriesOk(cfg, s) && e in s.store.pending && e in ids
    requires forall i :: 0 <= i < |ids| ==> s.store.Stale(ids[i], cfg.minIdle)
    requires forall i, j :: 0 <= i < j < |ids| ==> ids[i] < ids[j]
    ensures Reached(s, Run(cfg, s, Adopts(ids, consumer)), e)
  {
    var n := |ids| - 1;
    var before := Adopts(ids, consumer)[..n];
    assert before == Adopts(ids[..n], consumer);
    if e in ids[..n] {
      AdoptedIsReached(cfg, s, ids[..n], consumer, e);
      RunIsLater(cfg, s, before, e);
      var mid := Run(cfg, s, before);
      StepIsLater(cfg, mid, Adopt(ids[n], consumer), e);
    } else {
      AdoptsLeaveOthers(cfg, s, ids[..n], consumer, e);
    }
  }

  lemma AdoptLeavesOthers(cfg: Cfg, s: State, id: EntryId, consumer: string, e: EntryId)
    requires e != id && e in s.store.pending && e in s.hist.deliveries
    ensures var s' := Step(cfg, s, Adopt(id, consumer));
      && s'.store.stream == s.store.stream && s'.store.now == s.store.now
      && e in s'.store.pending && s'.store.pending[e] == s.store.pending[e]
      && e in s'.hist.deliveries && s'.hist.deliveries[e] == s.hist.deliveries[e]
  {
  }

  /** Adoptions of other entries leave `e` as it was. */
  lemma {:induction false} AdoptsLeaveOthers(cfg: Cfg, s: State, ids: seq<EntryId>, consumer: string, e: EntryId)
    requires e !in ids && e in s.store.pending && e in s.hist.deliveries
    ensures var s' := Run(cfg, s, Adopts(ids, consumer));
      && s'.store.stream == s.store.stream && s'.store.now == s.store.now
      && e in s'.store.pending && s'.store.pending[e] == s.store.pending[e]
      && e in s'.hist.deliveries && s'.hist.deliveries[e] == s.hist.deliveries[e]
  {
    if ids != [] {
      var n := |ids| - 1;
      assert Adopts(ids, consumer)[..n] == Adopts(ids[..n], consumer);
      AdoptsLeaveOthers(cfg, s, ids[..n], consumer, e);
      AdoptLeavesOthers(cfg, Run(cfg, s, Adopts(ids[..n], consumer)), ids[n], consumer, e);
    }
  }

  datatype Sweeper = Sweeper(s: State, cursor: EntryId)

  /** A worker's reclaim_stale calls; before each one the whole system does whatever it likes. */
  ghost function Sweeps(cfg: Cfg, consumer: string, batch: nat, w: Sweeper, rounds: seq<seq<Action>>): Sweeper
    decreases |rounds|
  {
    if rounds == [] then w else Sweeps(cfg, consumer, batch, OneSweep(cfg, consumer, batch, w, rounds[0]), rounds[1..])
  }

  ghost function OneSweep(cfg: Cfg, consumer: string, batch: nat, w: Sweeper, others: seq<Action>): Sweeper {
    var s := Run(cfg, w.s, others);
    var sweep := s.store.Scan(cfg.minIdle, w.cursor, 10 * batch, batch);
    Sweeper(Run(cfg, s, Adopts(sweep.adopted, consumer)), sweep.cursor)
  }

  lemma SweepAdvances(cfg: Cfg, consumer: string, batch: nat, w: Sweeper, others: seq<Action>, e: EntryId)
    requires Inv(cfg, w.s) && DeliveriesOk(cfg, w.s) && batch > 0
    requires e in w.s.store.pending && w.s.store.Stale(e, cfg.minIdle) && w.cursor <= e
    ensures var w' := OneSweep(cfg, consumer, batch, w, others);
      && Inv(cfg, w'.s) && DeliveriesOk(cfg, w'.s) && LaterFor(w.s, w'.s, e)
      && (Reached(w.s, w'.s, e)
          || (w'.cursor <= e && e in w'.s.store.pending && w'.s.store.Stale(e, cfg.minIdle)
              && Ahead(w'.s.store.pending, w'.cursor, e) < Ahead(w.s.store.pending, w.cursor, e)))
  {
    var s := Run(cfg, w.s, others);
    var sweep := s.store.Scan(cfg.minIdle, w.cursor, 10 * batch, batch);
    var s' := Run(cfg, s, Adopts(sweep.adopted, consumer));
    RunIsLater(cfg, w.s, others, e);
    RunIsLater(cfg, s, Adopts(sweep.adopted, consumer), e);
    if !Reached(w.s, s, e) {
      assert s.store.Stale(e, cfg.minIdle);
      ScanAdoptsStale(s.store, cfg.minIdle, w.cursor, 10 * batch, batch);
      ScanProgress(s.store, cfg.minIdle, w.cursor, 10 * batch, batch, e);
      AheadShrinks(w.s.store.pending, s.store.pending, w.cursor, e);
      AheadShrinks(s.store.pending, s'.store.pending, sweep.cursor, e);
      if e in sweep.adopted {
        AdoptedIsReached(cfg, s, sweep.adopted, consumer, e);
      } else {
        AdoptsLeaveOthers(cfg, s, sweep.adopted, consumer, e);
      }
    }
  }

  /** A worker that sweeps often enough reaches a stale entry. */
  lemma {:induction false} StaleEntryIsReached(cfg: Cfg, consumer: string, batch: nat, w: Sweeper,
                                               rounds: seq<seq<Action>>, e: EntryId)
    requires Inv(cfg, w.s) && DeliveriesOk(cfg, w.s) && batch > 0
    requires e in w.s.store.pending && w.s.store.Stale(e, cfg.minIdle) && w.cursor <= e
    requires |rounds| >= Ahead(w.s.store.pending, w.cursor, e)
    ensures Reached(w.s, Sweeps(cfg, consumer, batch, w, rounds).s, e)
    decreases |rounds|
  {
    AheadCountsTheEntry(w.s.store.pending, w.cursor, e);
    var w' := OneSweep(cfg, consumer, batch, w, rounds[0]);
    SweepAdvances(cfg, consumer, batch, w, rounds[0], e);
    if Reached(w.s, w'.s, e) {
      SweepsAreLater(cfg, consumer, batch, w', rounds[1..], e);
    } else {
      StaleEntryIsReached(cfg, consumer, batch, w', rounds[1..], e);
      SweepsAreLater(cfg, consumer, batch, w', rounds[1..], e);
    }
  }

  /**
    Reclaim coverage. In any reachable state, whatever the rest of the system does
    between sweeps, a stale pending entry at or above the cursor is handed out
    again (by this worker or another) or leaves the pending list within as many
    sweeps as there are pending ids from the cursor up to it. Entries with
    undecodable payloads count like any other and do not hold the cursor up.
   */
  lemma {:induction false} ReclaimCoverage(cfg: Cfg, actions: seq<Action>, consumer: string, batch: nat,
                                           cursor: EntryId,
                        rounds: seq<seq<Action>>, e: EntryId)
    requires batch > 0 && cursor <= e
    requires var s := Run(cfg, Init, actions);
      s.store.Stale(e, cfg.minIdle) && |rounds| >= Ahead(s.store.pending, cursor, e)
    ensures var s := Run(cfg, Init, actions);
      e in s.hist.deliveries && Reached(s, Sweeps(cfg, consumer, batch, Sweeper(s, cursor), rounds).s, e)
  {
    Reachable(cfg, actions);
    DeliveriesHold(cfg, actions);
    StaleEntryIsReached(cfg, consumer, batch, Sweeper(Run(cfg, Init, actions), cursor), rounds, e);
  }

  lemma {:induction false} AheadCountsTheEntry<T>(ids: map<EntryId, T>, lo: nat, e: nat)
    requires lo <= e && e in ids
    ensures Ahead(ids, lo, e) >= 1
    decreases e - lo
  {
    if lo < e {
      AheadCountsTheEntry(ids, lo + 1, e);
    }
  }

  lemma OneSweepIsLater(cfg: Cfg, consumer: string, batch: nat, w: Sweeper, others: seq<Action>, e: EntryId)
    requires Inv(cfg, w.s) && DeliveriesOk(cfg, w.s) && e <= w.s.store.lastDelivered
    ensures var w' := OneSweep(cfg, consumer, batch, w, others);
      Inv(cfg, w'.s) && DeliveriesOk(cfg, w'.s) && LaterFor(w.s, w'.s, e)
  {
    var s := Run(cfg, w.s, others);
    RunIsLater(cfg, w.s, others, e);
    RunIsLater(cfg, s, Adopts(s.store.Scan(cfg.minIdle, w.cursor, 10 * batch, batch).adopted, consumer), e);
  }

  lemma {:induction false} SweepsAreLater(cfg: Cfg, consumer: string, batch: nat, w: Sweeper,
                                          rounds: seq<seq<Action>>, e: EntryId)
    requires Inv(cfg, w.s) && DeliveriesOk(cfg, w.s) && e <= w.s.store.lastDelivered
    ensures var s' := Sweeps(cfg, consumer, batch, w, rounds).s;
      Inv(cfg, s') && DeliveriesOk(cfg, s') && LaterFor(w.s, s', e)
    decreases |rounds|
  {
    if rounds != [] {
      OneSweepIsLater(cfg, consumer, batch, w, rounds[0], e);
      SweepsAreLater(cfg, consumer, batch, OneSweep(cfg, consumer, batch, w, rounds[0]), rounds[1..], e);
    }
  }

  lemma {:induction false} OneMoreSweep(cfg: Cfg, consumer: string, batch: nat, w: Sweeper,
                                        rounds: seq<seq<Action>>, others: seq<Action>)
    ensures Sweeps(cfg, consumer, batch, w, rounds + [others])
         == OneSweep(cfg, consumer, batch, Sweeps(cfg, consumer, batch, w, rounds), others)
    decreases |rounds|
  {
    if rounds == [] {
      assert rounds + [others] == [others] && [others][1..] == [];
    } else {
      assert (rounds + [others])[1..] == rounds[1..] + [others];
      OneMoreSweep(cfg, consumer, batch, OneSweep(cfg, consumer, batch, w, rounds[0]), rounds[1..], others);
    }
  }

  lemma {:induction false} RunConcat(cfg: Cfg, s: State, one: seq<Action>, two: seq<Action>)
    ensures Run(cfg, s, one + two) == Run(cfg, Run(cfg, s, one), two)
  {
    if two == [] {
      assert one + two == one;
    } else {
      var n := |two| - 1;
      assert (one + two)[..|one + two| - 1] == one + two[..n];
      RunConcat(cfg, s, one, two[..n]);
    }
  }

  /** Coverage still holds after whatever follows the last sweep. */
  lemma CoverageStays(cfg: Cfg, actions: seq<Action>, consumer: string, batch: nat, rounds: seq<seq<Action>>,
                      rest: seq<Action>, e: EntryId)
    requires batch > 0
    requires var s := Run(cfg, Init, actions);
      s.store.Stale(e, cfg.minIdle) && |rounds| >= Ahead(s.store.pending, 0, e)
    ensures var s := Run(cfg, Init, actions);
      && e in s.hist.deliveries
      && Reached(s, Run(cfg, Sweeps(cfg, consumer, batch, Sweeper(s, 0), rounds).s, rest), e)
  {
    var s := Run(cfg, Init, actions);
    Reachable(cfg, actions);
    DeliveriesHold(cfg, actions);
    ReclaimCoverage(cfg, actions, consumer, batch, 0, rounds, e);
    SweepsAreLater(cfg, consumer, batch, Sweeper(s, 0), rounds, e);
    RunIsLater(cfg, Sweeps(cfg, consumer, batch, Sweeper(s, 0), rounds).s, rest, e);
  }

  // ----- from any cursor -----

  lemma {:induction false} AheadSplit<T>(ids: map<EntryId, T>, lo: nat, hi: nat, hi': nat)
    requires hi <= hi' && forall id :: hi < id <= hi' ==> id !in ids
    ensures Ahead(ids, lo, hi') == Ahead(ids, lo, hi)
    decreases hi' + 1 - lo
  {
    if lo <= hi' {
      AheadSplit(ids, lo + 1, hi, hi');
    }
  }

  lemma {:induction false} AheadOneMore<T>(before: map<EntryId, T>, after: map<EntryId, T>, id: EntryId,
                                           lo: nat, hi: nat)
    requires forall k :: k in after ==> k in before || k == id
    ensures Ahead(after, lo, hi) <= Ahead(before, lo, hi) + if lo <= id then 1 else 0
    decreases hi + 1 - lo
  {
    if lo <= hi {
      AheadOneMore(before, after, id, lo + 1, hi);
    }
  }

  lemma {:induction false} AheadFewer<T>(ids: map<EntryId, T>, lo: nat, lo': nat, hi: nat)
    requires lo <= lo'
    ensures Ahead(ids, lo', hi) <= Ahead(ids, lo, hi)
    decreases lo' - lo
  {
    if lo < lo' {
      AheadFewer(ids, lo + 1, lo', hi);
    }
  }

  /** One sweep wraps around or leaves strictly fewer pending ids at or above its cursor. */
  lemma {:induction false} ScanWraps(st: Store, minIdle: real, at: EntryId, attempts: nat, count: nat)
    ensures var next := st.Scan(minIdle, at, attempts, count).cursor;
      || next == 0
      || (at <= next <= st.lastId && Ahead(st.pending, next, st.lastId) <= Ahead(st.pending, at, st.lastId)
          && (attempts > 0 && count > 0 ==> Ahead(st.pending, next, st.lastId) < Ahead(st.pending, at, st.lastId)))
    decreases st.lastId + 1 - at
  {
    if at > st.lastId {
    } else if at !in st.pending {
      ScanWraps(st, minIdle, at + 1, attempts, count);
    } else if attempts == 0 || count == 0 {
    } else if !st.Stale(at, minIdle) {
      ScanWraps(st, minIdle, at + 1, attempts - 1, count);
    } else {
      ScanWraps(st, minIdle, at + 1, attempts - 1, count - 1);
    }
  }

  /** Entries handed out for the first time. */
  function Firsts(actions: seq<Action>): nat {
    if actions == [] then 0
    else Firsts(actions[..|actions| - 1]) + if actions[|actions| - 1].Deliver? then 1 else 0
  }

  function FirstsIn(rounds: seq<seq<Action>>): nat
    decreases |rounds|
  {
    if rounds == [] then 0 else Firsts(rounds[0]) + FirstsIn(rounds[1..])
  }

  /** The pending ids at or above a cursor. */
  function Above(st: Store, cursor: EntryId): nat {
    Ahead(st.pending, cursor, st.lastId)
  }

  lemma StepAbove(cfg: Cfg, s: State, a: Action, cursor: EntryId)
    requires Inv(cfg, s)
    ensures Above(Step(cfg, s, a).store, cursor) <= Above(s.store, cursor) + if a.Deliver? then 1 else 0
  {
    if !Enabled(cfg, s, a) { return; }
    var st, st' := s.store, Step(cfg, s, a).store;
    if a.Go? {
      OwnOutline(cfg, s, a.h);
    } else {
      OthersOutline(cfg, s, a);
    }
    if a.Deliver? {
      AheadOneMore(st.pending, st'.pending, a.id, cursor, st'.lastId);
    } else {
      AheadShrinks(st.pending, st'.pending, cursor, st'.lastId);
    }
    AheadSplit(st.pending, cursor, st.lastId, st'.lastId);
  }

  lemma {:induction false} RunAbove(cfg: Cfg, s: State, actions: seq<Action>, cursor: EntryId)
    requires Inv(cfg, s)
    ensures Inv(cfg, Run(cfg, s, actions))
    ensures Above(Run(cfg, s, actions).store, cursor) <= Above(s.store, cursor) + Firsts(actions)
  {
    if actions != [] {
      var before, a := actions[..|actions| - 1], actions[|actions| - 1];
      RunAbove(cfg, s, before, cursor);
      StepKeepsInv(cfg, Run(cfg, s, before), a);
      StepAbove(cfg, Run(cfg, s, before), a, cursor);
    }
  }

  lemma {:induction false} AdoptsAreNotFirsts(ids: seq<EntryId>, consumer: string)
    ensures Firsts(Adopts(ids, consumer)) == 0
  {
    if ids != [] {
      assert Adopts(ids, consumer)[..|ids| - 1] == Adopts(ids[..|ids| - 1], consumer);
      AdoptsAreNotFirsts(ids[..|ids| - 1], consumer);
    }
  }

  /** A sweep, and what happened before it, wraps around or makes headway against the new deliveries. */
  lemma SweepWraps(cfg: Cfg, consumer: string, batch: nat, w: Sweeper, others: seq<Action>)
    requires Inv(cfg, w.s) && batch > 0
    ensures var w' := OneSweep(cfg, consumer, batch, w, others);
      w'.cursor == 0
      || (w'.cursor >= w.cursor && Above(w'.s.store, w'.cursor) < Above(w.s.store, w.cursor) + Firsts(others))
  {
    var s := Run(cfg, w.s, others);
    var sweep := s.store.Scan(cfg.minIdle, w.cursor, 10 * batch, batch);
    RunAbove(cfg, w.s, others, w.cursor);
    ScanWraps(s.store, cfg.minIdle, w.cursor, 10 * batch, batch);
    RunAbove(cfg, s, Adopts(sweep.adopted, consumer), sweep.cursor);
    AdoptsAreNotFirsts(sweep.adopted, consumer);
  }

  /** How many sweeps are enough, wherever the cursor is: once around, chased by new deliveries, and up to the entry. */
  function SweepsNeeded(w: Sweeper, rounds: seq<seq<Action>>, e: EntryId): nat {
    Above(w.s.store, w.cursor) + FirstsIn(rounds) + Ahead(w.s.store.pending, 0, e) + 1
  }

  lemma {:induction false} ReachedFromAnyCursor(cfg: Cfg, consumer: string, batch: nat, w: Sweeper,
                                                rounds: seq<seq<Action>>, e: EntryId)
    requires Inv(cfg, w.s) && DeliveriesOk(cfg, w.s) && batch > 0
    requires e in w.s.store.pending && w.s.store.Stale(e, cfg.minIdle)
    requires |rounds| >= SweepsNeeded(w, rounds, e)
    ensures Reached(w.s, Sweeps(cfg, consumer, batch, w, rounds).s, e)
    decreases |rounds|
  {
    if w.cursor <= e {
      AheadFewer(w.s.store.pending, 0, w.cursor, e);
      StaleEntryIsReached(cfg, consumer, batch, w, rounds, e);
      return;
    }
    var w' := OneSweep(cfg, consumer, batch, w, rounds[0]);
    SweepWraps(cfg, consumer, batch, w, rounds[0]);
    OneSweepIsLater(cfg, consumer, batch, w, rounds[0], e);
    SweepsAreLater(cfg, consumer, batch, w', rounds[1..], e);
    if !Reached(w.s, w'.s, e) {
      assert w'.s.store.Stale(e, cfg.minIdle);
      AheadShrinks(w.s.store.pending, w'.s.store.pending, 0, e);
      if w'.cursor == 0 {
        StaleEntryIsReached(cfg, consumer, batch, w', rounds[1..], e);
      } else {
        ReachedFromAnyCursor(cfg, consumer, batch, w', rounds[1..], e);
      }
    }
  }

  /** It stays reached whatever follows the last sweep. */
  lemma ReachedAndStays(cfg: Cfg, consumer: string, batch: nat, w: Sweeper, rounds: seq<seq<Action>>,
                        rest: seq<Action>, e: EntryId)
    requires Inv(cfg, w.s) && DeliveriesOk(cfg, w.s) && batch > 0
    requires w.s.store.Stale(e, cfg.minIdle) && |rounds| >= SweepsNeeded(w, rounds, e)
    ensures e in w.s.hist.deliveries
    ensures Reached(w.s, Run(cfg, Sweeps(cfg, consumer, batch, w, rounds).s, rest), e)
  {
    ReachedFromAnyCursor(cfg, consumer, batch, w, rounds, e);
    SweepsAreLater(cfg, consumer, batch, w, rounds, e);
    RunIsLater(cfg, Sweeps(cfg, consumer, batch, w, rounds).s, rest, e);
  }

  lemma {:induction false} SweepsSplit(cfg: Cfg, consumer: string, batch: nat, w: Sweeper,
                                       one: seq<seq<Action>>, two: seq<seq<Action>>)
    ensures Sweeps(cfg, consumer, batch, w, one + two)
         == Sweeps(cfg, consumer, batch, Sweeps(cfg, consumer, batch, w, one), two)
    decreases |one|
  {
    if one == [] {
      assert one + two == two;
    } else {
      assert (one + two)[1..] == one[1..] + two;
      SweepsSplit(cfg, consumer, batch, OneSweep(cfg, consumer, batch, w, one[0]), one[1..], two);
    }
  }

  /**
    Coverage of a running worker. An entry that is stale after any of the worker's
    sweeps, below or above its cursor, is handed out again or leaves the pending
    list by the end, if the sweeps still to come are as many as there are pending
    ids from the cursor on, plus those first delivered meanwhile, plus those up to
    the entry, plus one.
   */
  lemma {:induction false} CoverageFromAnyCursor(cfg: Cfg, actions: seq<Action>, consumer: string, batch: nat,
                                                 rounds: seq<seq<Action>>, k: nat, rest: seq<Action>, e: EntryId)
    requires batch > 0 && k <= |rounds|
    requires var w := Sweeps(cfg, consumer, batch, Sweeper(Run(cfg, Init, actions), 0), rounds[..k]);
      w.s.store.Stale(e, cfg.minIdle) && |rounds| - k >= SweepsNeeded(w, rounds[k..], e)
    ensures var start := Sweeper(Run(cfg, Init, actions), 0);
      var w := Sweeps(cfg, consumer, batch, start, rounds[..k]);
      && e in w.s.hist.deliveries
      && Reached(w.s, Run(cfg, Sweeps(cfg, consumer, batch, start, rounds).s, rest), e)
  {
    var start := Sweeper(Run(cfg, Init, actions), 0);
    var w := Sweeps(cfg, consumer, batch, start, rounds[..k]);
    Reachable(cfg, actions);
    DeliveriesHold(cfg, actions);
    SweepsAreLater(cfg, consumer, batch, start, rounds[..k], 0);
    SweepsSplit(cfg, consumer, batch, start, rounds[..k], rounds[k..]);
    assert rounds[..k] + rounds[k..] == rounds;
    ReachedAndStays(cfg, consumer, batch, w, rounds[k..], rest, e);
  }

  // ----- a dead handler's claim -----

  /** The deliveries that fall in a window. */
  function CountIn(times: seq<real>, from: real, until: real): nat {
    if times == [] then 0
    else CountIn(times[..|times| - 1], from, until) + if from <= times[|times| - 1] < until then 1 else 0
  }

  function Ceiling(x: real): int {
    -((-x).Floor)
  }

  /** `k` gaps laid end to end. */
  function Gaps(k: nat, gap: real): real {
    if k == 0 then 0.0 else Gaps(k - 1, gap) + gap
  }

  lemma {:induction false} GapsMultiply(k: nat, gap: real)
    ensures Gaps(k, gap) == k as real * gap
    ensures gap >= 0.0 ==> Gaps(k, gap) >= 0.0
  {
    if k > 0 {
      GapsMultiply(k - 1, gap);
    }
  }

  /** Deliveries in a window leave room for a gap between each two of them. */
  lemma {:induction false} SpacedIsSparse(times: seq<real>, gap: real, from: real, until: real)
    requires Spaced(times, gap) && gap > 0.0
    ensures var k := CountIn(times, from, until);
      k > 0 ==> Gaps(k - 1, gap) < until - from && Gaps(k - 1, gap) <= Last(times) - from
  {
    if |times| > 1 {
      var n := |times| - 1;
      var k := CountIn(times[..n], from, until);
      SpacedIsSparse(times[..n], gap, from, until);
      assert times[n] - times[n - 1] >= gap;
      if k > 0 {
        GapsMultiply(k - 1, gap);
      }
    }
  }

  lemma CeilingBounds(k: nat, gap: real, span: real)
    requires gap > 0.0 && (k > 0 ==> Gaps(k - 1, gap) < span)
    requires span >= 0.0
    ensures k <= Ceiling(span / gap)
  {
    if k > 0 {
      GapsMultiply(k - 1, gap);
      assert span / gap * gap == span;
      assert (k - 1) as real < span / gap;
    }
  }

  /** The next step is a handler on `e`, handed out since `from`, finding a claim that lapses at `expiry`. */
  ghost predicate Deferral(cfg: Cfg, s: State, a: Action, e: EntryId, from: real, expiry: real) {
    && a.Go? && Enabled(cfg, s, a) && s.handlers[a.h].pc.SetNx?
    && s.handlers[a.h].entry == e && s.handlers[a.h].startAt >= from
    && s.store.Live(s.handlers[a.h].event.mid)
    && s.store.claims[s.handlers[a.h].event.mid] == Claim(InFlight, expiry)
  }

  ghost function Deferrals(cfg: Cfg, actions: seq<Action>, e: EntryId, from: real, expiry: real): nat {
    if actions == [] then 0
    else
      var before := actions[..|actions| - 1];
      Deferrals(cfg, before, e, from, expiry)
      + if Deferral(cfg, Run(cfg, Init, before), actions[|actions| - 1], e, from, expiry) then 1 else 0
  }

  predicate MayDefer(hd: Handler, e: EntryId, from: real, expiry: real) {
    hd.entry == e && hd.pc.SetNx? && from <= hd.startAt < expiry
  }

  /** The handlers on `e` that the claim may still defer. */
  ghost function Deferrable(s: State, e: EntryId, from: real, expiry: real): set<Hid> {
    set h | h in s.handlers && MayDefer(s.handlers[h], e, from, expiry)
  }

  lemma GoDefers(cfg: Cfg, s: State, h: Hid, s': State, e: EntryId, from: real, expiry: real)
    requires h in s.handlers && OwnStep(cfg, s, h, s') && s.handlers[h].startAt <= s.store.now
    ensures |Deferrable(s', e, from, expiry)| + (if Deferral(cfg, s, Go(h), e, from, expiry) then 1 else 0)
         <= |Deferrable(s, e, from, expiry)|
  {
    var before := Deferrable(s, e, from, expiry);
    assert Deferrable(s', e, from, expiry) == before - {h};
    if Deferral(cfg, s, Go(h), e, from, expiry) {
      assert h in before;
    }
  }

  /** Any other step leaves the handlers at begin_delivery as they were, but for a new one. */
  lemma OtherDefers(cfg: Cfg, s: State, a: Action, s': State, e: EntryId, from: real, expiry: real)
    requires OtherStep(cfg, s, a, s')
    ensures |Deferrable(s', e, from, expiry)| - |Deferrable(s, e, from, expiry)|
         <= CountIn(TimesOf(s'.hist, e), from, expiry) - CountIn(TimesOf(s.hist, e), from, expiry)
  {
    var added := if HandsOut(s, a, e, from, expiry) then {s.nextHid} else {};
    OnlyTheNewOne(cfg, s, a, s', e, from, expiry);
    SubsetIsSmaller(Deferrable(s', e, from, expiry), Deferrable(s, e, from, expiry) + added);
    OneMoreInWindow(s, a, s', e, from, expiry);
  }

  /** The entry is handed out within the window. */
  predicate HandsOut(s: State, a: Action, e: EntryId, from: real, expiry: real) {
    (a.Deliver? || a.Adopt?) && a.id == e && from <= s.store.now < expiry
  }

  lemma OnlyTheNewOne(cfg: Cfg, s: State, a: Action, s': State, e: EntryId, from: real, expiry: real)
    requires OtherStep(cfg, s, a, s')
    ensures Deferrable(s', e, from, expiry)
         <= Deferrable(s, e, from, expiry) + if HandsOut(s, a, e, from, expiry) then {s.nextHid} else {}
  {
    forall k | k in Deferrable(s', e, from, expiry)
      ensures k in Deferrable(s, e, from, expiry) || (HandsOut(s, a, e, from, expiry) && k == s.nextHid)
    {
      assert Lineage(s, a, s', k);
    }
  }

  lemma OneMoreInWindow(s: State, a: Action, s': State, e: EntryId, from: real, expiry: real)
    requires s'.hist.deliveries == if a.Deliver? || a.Adopt?
                                   then s.hist.deliveries[a.id := TimesOf(s.hist, a.id) + [s.store.now]]
                                   else s.hist.deliveries
    ensures CountIn(TimesOf(s'.hist, e), from, expiry)
         == CountIn(TimesOf(s.hist, e), from, expiry) + if HandsOut(s, a, e, from, expiry) then 1 else 0
  {
    var times := TimesOf(s'.hist, e);
    assert (a.Deliver? || a.Adopt?) && a.id == e ==> times[..|times| - 1] == TimesOf(s.hist, e);
  }

  lemma {:induction false} SubsetIsSmaller(a: set<Hid>, b: set<Hid>)
    requires a <= b
    ensures |a| <= |b|
  {
    assert b == a + (b - a);
  }

  lemma {:induction false} DeferralsFollowDeliveries(cfg: Cfg, actions: seq<Action>, e: EntryId, from: real,
                                                     expiry: real)
    ensures var s := Run(cfg, Init, actions);
      Deferrals(cfg, actions, e, from, expiry) + |Deferrable(s, e, from, expiry)|
      <= CountIn(TimesOf(s.hist, e), from, expiry)
  {
    if actions == [] { return; }
    var before, a := actions[..|actions| - 1], actions[|actions| - 1];
    var s := Run(cfg, Init, before);
    DeferralsFollowDeliveries(cfg, before, e, from, expiry);
    Reachable(cfg, before);
    ClocksHold(cfg, before);
    if Enabled(cfg, s, a) {
      DeferralStep(cfg, s, a, e, from, expiry);
    }
  }

  lemma DeferralStep(cfg: Cfg, s: State, a: Action, e: EntryId, from: real, expiry: real)
    requires Clocked(s) && s.nextHid !in s.handlers && Enabled(cfg, s, a)
    ensures var s' := Step(cfg, s, a);
      (if Deferral(cfg, s, a, e, from, expiry) then 1 else 0)
      + |Deferrable(s', e, from, expiry)| - |Deferrable(s, e, from, expiry)|
      <= CountIn(TimesOf(s'.hist, e), from, expiry) - CountIn(TimesOf(s.hist, e), from, expiry)
  {
    if a.Go? {
      OwnOutline(cfg, s, a.h);
      assert ClockedHandler(s.store.now, s.handlers[a.h]);
      GoDefers(cfg, s, a.h, GoStep(cfg, s, a.h), e, from, expiry);
    } else {
      OthersOutline(cfg, s, a);
      OtherDefers(cfg, s, a, Step(cfg, s, a), e, from, expiry);
    }
  }

  /**
    Bounded recovery. Handlers given the entry since a claim was written find that
    claim in their way at most ceil(claim TTL / reclaim delay) times: successive
    deliveries are a reclaim delay apart, each brings one handler, and the claim
    lapses.
   */
  lemma {:induction false} DeadClaimDefersBoundedly(cfg: Cfg, actions: seq<Action>, e: EntryId, written: real)
    requires cfg.minIdle > 0.0 && cfg.claimTtl > 0.0
    ensures Deferrals(cfg, actions, e, written, written + cfg.claimTtl) <= Ceiling(cfg.claimTtl / cfg.minIdle)
  {
    var times := TimesOf(Run(cfg, Init, actions).hist, e);
    DeliveriesHold(cfg, actions);
    DeferralsFollowDeliveries(cfg, actions, e, written, written + cfg.claimTtl);
    SpacedIsSparse(times, cfg.minIdle, written, written + cfg.claimTtl);
    CeilingBounds(CountIn(times, written, written + cfg.claimTtl), cfg.minIdle, cfg.claimTtl);
  }
}
