/**
  The commands a worker's loop sends (app/worker.py:269-300), counted as they are
  sent: a sweep or a read at each check of the shutdown flag, in turn, and a pause
  after each error.
 */
module Rota {
  import opened RedisStore
  import opened Protocol
  import opened Invariants

  predicate IsTry(call: Call) {
    call.command.AutoClaim? || call.command.ReadGroup?
  }

  /** The sweeps and reads sent, or tried. */
  function Tries(calls: seq<Call>): seq<Call> {
    if calls == [] then []
    else
      var call := calls[|calls| - 1];
      Tries(calls[..|calls| - 1]) + if IsTry(call) then [call] else []
  }

  /** depth() catches the error of XPENDING; any other gets to the loop. */
  predicate IsError(call: Call) {
    call.Broke? && !call.command.PendingSummary?
  }

  function Errors(calls: seq<Call>): nat {
    if calls == [] then 0
    else Errors(calls[..|calls| - 1]) + if IsError(calls[|calls| - 1]) then 1 else 0
  }

  function CountOf(calls: seq<Call>, call: Call): nat {
    if calls == [] then 0
    else CountOf(calls[..|calls| - 1], call) + if calls[|calls| - 1] == call then 1 else 0
  }

  /** After a sweep that was sent comes a read; after anything else, a sweep. */
  predicate InTurn(tries: seq<Call>) {
    forall i :: 0 <= i < |tries| ==> tries[i].command == Due(tries[..i])
  }

  function Due(tries: seq<Call>): Command {
    if tries != [] && tries[|tries| - 1] == Ran(AutoClaim) then ReadGroup else AutoClaim
  }

  /** So many tries, in turn, so many of them sweeps and reads that were sent, and so many errors. */
  ghost predicate Tallied(calls: seq<Call>, tried: nat, sweeps: nat, readings: nat, errors: nat) {
    var tries := Tries(calls);
    && |tries| == tried && InTurn(tries)
    && CountOf(tries, Ran(AutoClaim)) == sweeps && CountOf(tries, Ran(ReadGroup)) == readings
    && Errors(calls) == errors
  }

  /** The commands sent between the two are so tallied. */
  ghost predicate SentInTurn(before: seq<Call>, after: seq<Call>, tried: nat, sweeps: nat, readings: nat, errors: nat) {
    before <= after && Tallied(after[|before|..], tried, sweeps, readings, errors)
  }

  lemma SentSince(before: seq<Call>, calls: seq<Call>, tried: nat, sweeps: nat, readings: nat, errors: nat)
    requires Tallied(calls, tried, sweeps, readings, errors)
    ensures SentInTurn(before, before + calls, tried, sweeps, readings, errors)
  {
    assert (before + calls)[|before|..] == calls;
  }

  function Bit(b: bool): nat {
    if b then 1 else 0
  }

  lemma OneMoreTry(tries: seq<Call>, call: Call)
    requires InTurn(tries) && call.command == Due(tries)
    ensures InTurn(tries + [call])
    ensures forall c :: CountOf(tries + [call], c) == CountOf(tries, c) + Bit(call == c)
  {
    var more := tries + [call];
    assert more[..|tries|] == tries;
    forall i | 0 <= i < |more| ensures more[i].command == Due(more[..i]) {
      assert i < |tries| ==> more[..i] == tries[..i] && more[i] == tries[i];
    }
  }

  /** One more command on record. */
  lemma OneMoreCall(calls: seq<Call>, call: Call)
    ensures Tries(calls + [call]) == if IsTry(call) then Tries(calls) + [call] else Tries(calls)
    ensures Errors(calls + [call]) == Errors(calls) + Bit(IsError(call))
  {
    assert (calls + [call])[..|calls|] == calls;
  }

  /** A sweep or a read when it is due. */
  lemma TriedOnce(calls: seq<Call>, call: Call, tried: nat, sweeps: nat, readings: nat, errors: nat)
    requires Tallied(calls, tried, sweeps, readings, errors) && IsTry(call) && call.command == Due(Tries(calls))
    ensures Tallied(calls + [call], tried + 1, sweeps + Bit(call == Ran(AutoClaim)),
                    readings + Bit(call == Ran(ReadGroup)), errors + Bit(call.Broke?))
    ensures Due(Tries(calls + [call])) == if call == Ran(AutoClaim) then ReadGroup else AutoClaim
  {
    OneMoreCall(calls, call);
    OneMoreTry(Tries(calls), call);
  }

  /** Any other command leaves the turn as it is. */
  lemma NotATry(calls: seq<Call>, call: Call, tried: nat, sweeps: nat, readings: nat, errors: nat)
    requires Tallied(calls, tried, sweeps, readings, errors) && !IsTry(call)
    ensures Tallied(calls + [call], tried, sweeps, readings, errors + Bit(IsError(call)))
    ensures Due(Tries(calls + [call])) == Due(Tries(calls))
  {
    OneMoreCall(calls, call);
  }

  lemma Associate(one: seq<Call>, two: seq<Call>, three: seq<Call>)
    ensures one + two + three == one + (two + three)
  {
  }

  /** Two tries bring a sweep and a read, but for errors. */
  lemma {:induction false} TriesBring(tries: seq<Call>)
    requires InTurn(tries)
    ensures var sweeps, readings, failed := CountOf(tries, Ran(AutoClaim)), CountOf(tries, Ran(ReadGroup)),
                                         |tries| - CountOf(tries, Ran(AutoClaim)) - CountOf(tries, Ran(ReadGroup));
      failed >= 0 && 0 <= sweeps - readings - Bit(Due(tries) == ReadGroup) <= failed
  {
    if tries != [] {
      var before, call := tries[..|tries| - 1], tries[|tries| - 1];
      assert tries[..|before|] == before;
      assert call.command == Due(before);
      assert forall i :: 0 <= i < |before| ==> before[..i] == tries[..i];
      TriesBring(before);
    }
  }

  lemma {:induction false} BrokenTriesAreErrors(calls: seq<Call>)
    ensures var tries := Tries(calls);
      |tries| - CountOf(tries, Ran(AutoClaim)) - CountOf(tries, Ran(ReadGroup)) <= Errors(calls)
  {
    if calls != [] {
      var before, call := calls[..|calls| - 1], calls[|calls| - 1];
      BrokenTriesAreErrors(before);
      CountMore(Tries(before), call);
      assert before + [call] == calls;
      OneMoreCall(before, call);
    }
  }

  lemma CountMore(tries: seq<Call>, call: Call)
    ensures forall c :: CountOf(tries + [call], c) == CountOf(tries, c) + Bit(call == c)
  {
    assert (tries + [call])[..|tries|] == tries;
  }

  /** So many tries are at least half of them sweeps, and half of them reads, but for errors. */
  lemma TriesAreWork(calls: seq<Call>, tried: nat, sweeps: nat, readings: nat, errors: nat)
    requires Tallied(calls, tried, sweeps, readings, errors)
    ensures sweeps + readings <= tried <= sweeps + readings + errors
    ensures readings <= sweeps && tried <= 2 * sweeps + errors && tried <= 2 * readings + 2 * errors + 1
  {
    TriesBring(Tries(calls));
    BrokenTriesAreErrors(calls);
  }

  // ----- the clock -----

  lemma {:induction false} ClockRuns(cfg: Cfg, before: seq<Action>, log: seq<Action>)
    requires before <= log
    ensures Run(cfg, Init, before).store.now <= Run(cfg, Init, log).store.now
  {
    if |before| < |log| {
      var n := |log| - 1;
      ClockRuns(cfg, before, log[..n]);
      Reachable(cfg, log[..n]);
      ClockSteps(cfg, Run(cfg, Init, log[..n]), log[n]);
    } else {
      assert before == log;
    }
  }

  lemma ClockSteps(cfg: Cfg, s: State, a: Action)
    requires s.nextHid !in s.handlers
    ensures s.store.now <= Step(cfg, s, a).store.now
  {
    if Enabled(cfg, s, a) {
      if a.Go? {
        OwnOutline(cfg, s, a.h);
      } else {
        OthersOutline(cfg, s, a);
      }
    }
  }

  /** A pause of just this length stands in the log at each of these places, in order. */
  ghost predicate Paused(log: seq<Action>, from: nat, pauses: seq<nat>, seconds: real) {
    && (forall i :: 0 <= i < |pauses| ==> from <= pauses[i] < |log| && log[pauses[i]] == Tick(seconds))
    && forall i, j :: 0 <= i < j < |pauses| ==> pauses[i] < pauses[j]
  }

  lemma PausedOnceMore(before: seq<Action>, from: nat, pauses: seq<nat>, seconds: real)
    requires Paused(before, from, pauses, seconds) && from <= |before|
    ensures Paused(before + [Tick(seconds)], from, pauses + [|before|], seconds)
  {
  }

  lemma PausedStill(before: seq<Action>, later: seq<Action>, from: nat, pauses: seq<nat>, seconds: real)
    requires Paused(before, from, pauses, seconds) && before <= later
    ensures Paused(later, from, pauses, seconds)
  {
  }

  /** Each pause moves the clock on by its whole length. */
  lemma {:induction false} PausesMoveTheClock(cfg: Cfg, log: seq<Action>, from: nat, pauses: seq<nat>, seconds: real)
    requires Paused(log, from, pauses, seconds) && from <= |log| && seconds >= 0.0
    ensures Run(cfg, Init, log).store.now >= Run(cfg, Init, log[..from]).store.now + |pauses| as real * seconds
  {
    if pauses == [] {
      ClockRuns(cfg, log[..from], log);
    } else {
      var n := |pauses| - 1;
      var k := pauses[n];
      PausedBefore(log, from, pauses, seconds);
      PausesMoveTheClock(cfg, log[..k], from, pauses[..n], seconds);
      assert log[..k][..from] == log[..from];
      assert log[..k + 1][..k] == log[..k] && log[..k + 1][k] == Tick(seconds);
      assert Run(cfg, Init, log[..k + 1]).store.now == Run(cfg, Init, log[..k]).store.now + seconds;
      ClockRuns(cfg, log[..k + 1], log);
      OneMore(n, seconds);
    }
  }

  lemma PausedBefore(log: seq<Action>, from: nat, pauses: seq<nat>, seconds: real)
    requires Paused(log, from, pauses, seconds) && pauses != []
    ensures var n := |pauses| - 1; from <= pauses[n] < |log| && Paused(log[..pauses[n]], from, pauses[..n], seconds)
  {
  }

  lemma OneMore(n: nat, seconds: real)
    ensures (n + 1) as real * seconds == n as real * seconds + seconds
  {
  }
}
