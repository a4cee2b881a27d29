/**
  How the event loop runs the handlers of one batch (app/worker.py:199-202). A
  coroutine is `handle` stopped at an await; resuming it runs one command, from
  that await to the next. The loop may resume any of them next; that every order
  of their steps is a run of `Gather` is proved in module Interleaving.
 */
module Coroutines {
  import opened RedisStore
  import opened Protocol
  import opened Queue
  import opened Handout
  import opened Interleaving
  import opened Results
  import Config

  /** dispatch has begun: its answer, or its end. */
  method AwaitAnswer(w: World, h: Hid) returns (r: Result<bool>)
    requires At(w, h, Posting)
    modifies w, w.redis
    ensures w.Valid() && w.Logged(if r.Success? then Protocol.Answer(h, r.value) else Kill(h))
    ensures if r.Success? then Answered(w, h, old(w.sys.handlers[h]), r.value) else w.OwnExcept(h) && w.Ended(h, false)
    ensures r.Success? ==> Elsewhere(w, h)
    ensures w.OneAwait(r.Raised?, false) && (r.Success? ==> r.value == NextTurn(old(w.turns)).answer)
  {
    var delivered :- w.Await(h);
    w.Settle(h, delivered);
    return Success(delivered);
  }

  /** The handler was `before` dispatch and has had its answer. */
  predicate Answered(w: World, h: Hid, before: Handler, ok: bool)
    reads w
  {
    && h in w.own && h in w.sys.handlers
    && SamePlace(AfterAnswer(w.cfg, before, ok), w.sys.handlers[h])
  }

  /** The worker still runs the same handlers, and those other than `h` are where they were. */
  twostate predicate Elsewhere(w: World, h: Hid)
    reads w
  {
    && w.own == old(w.own)
    && w.own <= old(w.sys.handlers.Keys) && w.own <= w.sys.handlers.Keys
    && forall k :: k in w.own && k != h ==> SamePlace(old(w.sys.handlers[k]), w.sys.handlers[k])
  }

  /**
    asyncio.sleep: the handler sleeps on until it has slept for the backoff, and no
    longer; if it already has, it does not wait.
   */
  method SleepOn(w: World, settings: Config.Settings, h: Hid, event: Event)
    requires At(w, h, Pc.Sleep) && w.sys.handlers[h].event == event
    modifies w, w.redis
    ensures w.Valid() && w.OwnUntouched() && w.turns == old(w.turns)
    ensures var before, after := old(w.sys.handlers[h].sleeping), w.sys.handlers[h].sleeping;
      && (before <= settings.Backoff(event.retry) ==> after == settings.Backoff(event.retry))
      && (before >= settings.Backoff(event.retry) ==> after == before)
    ensures w.log == old(w.log) + [Tick(Rest(settings, event, old(w.sys.handlers[h].sleeping)))]
  {
    var rest := settings.Backoff(event.retry) - w.sys.handlers[h].sleeping;
    w.Wait(if rest >= 0.0 then rest else 0.0);
  }

  /** The backoff sleep, to its end: one wait of just the right length, and one await. */
  method SleepOutBackoff(w: World, settings: Config.Settings, h: Hid, event: Event) returns (r: Result<()>)
    requires At(w, h, Pc.Sleep) && w.sys.handlers[h].event == event
    modifies w, w.redis
    ensures w.Valid()
    ensures w.log == old(w.log) + [Tick(Rest(settings, event, old(w.sys.handlers[h].sleeping)))] + w.Heard()
                     + [Ending(h, r.Success?)]
    ensures if r.Success? then w.Moved(h, Abandon) else w.OwnExcept(h) && w.Ended(h, false)
    ensures r.Success? ==> w.sys.handlers[h].sleeping >= settings.Backoff(event.retry)
    ensures w.OneAwait(r.Raised?, false)
  {
    SleepOn(w, settings, h, event);
    var _ :- w.Await(h);
    w.Advance(h);
    return Success(());
  }

  datatype Coroutine = Running(entry: EntryId, event: Event, at: Pc) | Returned | Threw

  /** How many commands are left at most. */
  function Rank(c: Coroutine): nat {
    if !c.Running? then 0
    else
      match c.at
      case SetNx => 12
      case GetKey => 11
      case Post => 10
      case Posting => 9
      case Sleep => 8
      case Abandon => 7
      case Requeue => 6
      case Park => 5
      case ParkAbandon => 4
      case Complete => 3
      case XAck(_) => 2
      case XDel(_) => 1
  }

  /** The coroutine is where its handler is, with the same entry and event. */
  predicate Matches(hd: Handler, c: Coroutine) {
    c.Running? && hd.entry == c.entry && hd.event == c.event && hd.pc == c.at
  }

  /** What resuming one coroutine does to the worker. */
  twostate predicate Resumed(w: World, h: Hid, c: Coroutine)
    reads w
  {
    if c.Running? then Elsewhere(w, h) && h in w.own && Matches(w.sys.handlers[h], c)
    else w.OwnExcept(h) && w.Ended(h, c.Returned?)
  }

  function Then(c: Coroutine, r: Result<()>, next: Pc): Coroutine
    requires c.Running?
  {
    if r.Raised? then Threw else c.(at := next)
  }

  /**
    From one await of `handle` to the next. The coroutine throws exactly if its own
    await raised or the server refused its command.
   */
  method Resume(w: World, settings: Config.Settings, h: Hid, c: Coroutine) returns (c': Coroutine)
    requires w.Valid() && h in w.own && Matches(w.sys.handlers[h], c) && w.cfg == CfgOf(settings)
    modifies w, w.redis
    ensures w.Valid() && Resumed(w, h, c')
    ensures Rank(c') < Rank(c)
    ensures w.turns == TurnsAfter(c.at, old(w.turns))
    ensures c'.Threw? <==> !c.at.Post? && (NextTurn(old(w.turns)).raises || Refused(w.cfg, c.at))
    ensures w.log == ResumedLog(w.cfg, settings, h, old(w.sys.handlers[h]), old(w.own), NextTurn(old(w.turns)),
                                old(w.log))
  {
    if c.at.SetNx? {
      c' := ResumeClaim(w, settings, h, c);
    } else if c.at.GetKey? {
      c' := ResumeReading(w, h, c);
    } else if c.at.Post? {
      w.Advance(h);
      c' := c.(at := Posting);
    } else if c.at.Posting? {
      c' := ResumeDispatch(w, settings, h, c);
    } else if c.at.Complete? || c.at.XAck? || c.at.XDel? {
      c' := ResumeEnding(w, settings, h, c);
    } else if c.at.Park? || c.at.ParkAbandon? {
      c' := ResumeGivingUp(w, h, c);
    } else if c.at.Sleep? {
      c' := ResumeSleep(w, settings, h, c);
    } else {
      c' := ResumeRetrying(w, h, c);
    }
  }

  /** complete_delivery and ack. */
  method ResumeEnding(w: World, settings: Config.Settings, h: Hid, c: Coroutine) returns (c': Coroutine)
    requires w.Valid() && h in w.own && Matches(w.sys.handlers[h], c)
    requires (c.at.Complete? || c.at.XAck? || c.at.XDel?) && w.cfg == CfgOf(settings)
    modifies w, w.redis
    ensures w.Valid() && Resumed(w, h, c') && w.Logged(OwnAction(w.cfg, h, c.at, NextTurn(old(w.turns))))
    ensures Rank(c') < Rank(c)
    ensures w.OneAwait(c'.Threw?, Refused(w.cfg, c.at))
  {
    var r;
    if c.at.Complete? {
      r := CompleteDelivery(w, settings, h, c.event.mid);
      c' := Then(c, r, Pc.XAck(Sent));
    } else if c.at.XAck? {
      r := ClearPending(w, h, c.entry, c.at.why);
      c' := Then(c, r, Pc.XDel(c.at.why));
    } else {
      r := DeleteEntry(w, h, c.entry, c.at.why);
      c' := if r.Raised? then Threw else Returned;
    }
  }

  /** dead_letter, and abandon_delivery after it. */
  method ResumeGivingUp(w: World, h: Hid, c: Coroutine) returns (c': Coroutine)
    requires w.Valid() && h in w.own && Matches(w.sys.handlers[h], c)
    requires c.at.Park? || c.at.ParkAbandon?
    modifies w, w.redis
    ensures w.Valid() && Resumed(w, h, c') && w.Logged(OwnAction(w.cfg, h, c.at, NextTurn(old(w.turns))))
    ensures Rank(c') < Rank(c)
    ensures w.OneAwait(c'.Threw?, Refused(w.cfg, c.at))
  {
    var r;
    if c.at.Park? {
      r := DeadLetter(w, h, c.event);
      c' := Then(c, r, ParkAbandon);
    } else {
      r := AbandonDelivery(w, h, c.event.mid);
      c' := Then(c, r, Pc.XAck(Parked));
    }
  }

  /** abandon_delivery and enqueue_event. */
  method ResumeRetrying(w: World, h: Hid, c: Coroutine) returns (c': Coroutine)
    requires w.Valid() && h in w.own && Matches(w.sys.handlers[h], c)
    requires c.at.Abandon? || c.at.Requeue?
    modifies w, w.redis
    ensures w.Valid() && Resumed(w, h, c') && w.Logged(OwnAction(w.cfg, h, c.at, NextTurn(old(w.turns))))
    ensures Rank(c') < Rank(c)
    ensures w.OneAwait(c'.Threw?, Refused(w.cfg, c.at))
  {
    var r;
    if c.at.Abandon? {
      r := AbandonDelivery(w, h, c.event.mid);
      c' := Then(c, r, Requeue);
    } else {
      var id := EnqueueEvent(w, h, c.event);
      c' := if id.Raised? then Threw else c.(at := Pc.XAck(Requeued));
    }
  }

  /** The backoff sleep. */
  method ResumeSleep(w: World, settings: Config.Settings, h: Hid, c: Coroutine) returns (c': Coroutine)
    requires w.Valid() && h in w.own && Matches(w.sys.handlers[h], c) && c.at.Sleep?
    modifies w, w.redis
    ensures w.Valid() && Resumed(w, h, c')
    ensures w.log == ResumedLog(w.cfg, settings, h, old(w.sys.handlers[h]), old(w.own), NextTurn(old(w.turns)),
                                old(w.log))
    ensures Rank(c') < Rank(c)
    ensures w.OneAwait(c'.Threw?, Refused(w.cfg, c.at))
  {
    var r := SleepOutBackoff(w, settings, h, c.event);
    c' := Then(c, r, Abandon);
  }

  method ResumeClaim(w: World, settings: Config.Settings, h: Hid, c: Coroutine) returns (c': Coroutine)
    requires w.Valid() && h in w.own && Matches(w.sys.handlers[h], c) && c.at.SetNx?
    requires w.cfg == CfgOf(settings)
    modifies w, w.redis
    ensures w.Valid() && Resumed(w, h, c') && w.Logged(OwnAction(w.cfg, h, c.at, NextTurn(old(w.turns))))
    ensures Rank(c') < Rank(c)
    ensures w.OneAwait(c'.Threw?, Refused(w.cfg, c.at))
  {
    var won := ClaimKey(w, settings, h, c.event.mid);
    c' := if won.Raised? then Threw else c.(at := if won.value then Post else GetKey);
  }

  method ResumeReading(w: World, h: Hid, c: Coroutine) returns (c': Coroutine)
    requires w.Valid() && h in w.own && Matches(w.sys.handlers[h], c) && c.at.GetKey?
    modifies w, w.redis
    ensures w.Valid() && Resumed(w, h, c') && w.Logged(OwnAction(w.cfg, h, c.at, NextTurn(old(w.turns))))
    ensures Rank(c') < Rank(c)
    ensures w.OneAwait(c'.Threw?, Refused(w.cfg, c.at))
  {
    var current := ReadKey(w, h, c.event.mid);
    c' := if current.Raised? then Threw
          else if current.value == Text(Done) then c.(at := Pc.XAck(AlreadySent))
          else Returned;
  }

  /** The answer of dispatch, and the branch it decides. */
  method ResumeDispatch(w: World, settings: Config.Settings, h: Hid, c: Coroutine) returns (c': Coroutine)
    requires w.Valid() && h in w.own && Matches(w.sys.handlers[h], c) && c.at.Posting?
    requires w.cfg == CfgOf(settings)
    modifies w, w.redis
    ensures w.Valid() && Resumed(w, h, c') && w.Logged(OwnAction(w.cfg, h, c.at, NextTurn(old(w.turns))))
    ensures Rank(c') < Rank(c)
    ensures w.OneAwait(c'.Threw?, Refused(w.cfg, c.at))
  {
    var delivered := AwaitAnswer(w, h);
    if delivered.Raised? {
      return Threw;
    }
    if delivered.value {
      return c.(at := Complete);
    }
    var event := c.event.(retry := c.event.retry + 1);
    return Running(c.entry, event, if event.retry > settings.maxRetries then Park else Pc.Sleep);
  }

  // ----- a batch -----

  /** One coroutine an entry, none begun. */
  function Begin(entries: seq<Entry>): seq<Coroutine> {
    seq(|entries|, i requires 0 <= i < |entries| => Running(entries[i].id, entries[i].event, SetNx))
  }

  function Outcomes(coroutines: seq<Coroutine>): seq<Result<()>> {
    seq(|coroutines|, i requires 0 <= i < |coroutines| => if coroutines[i].Threw? then Raised else Success(()))
  }

  /** The worker runs exactly the handlers of the running coroutines, numbered from `first`. */
  ghost predicate UnderWay(w: World, first: Hid, coroutines: seq<Coroutine>)
    reads w, w.redis
  {
    && w.Valid()
    && (forall h :: h in w.own ==> first <= h < first + |coroutines|)
    && (forall i :: 0 <= i < |coroutines| ==> (first + i in w.own <==> coroutines[i].Running?))
    && (forall i :: 0 <= i < |coroutines| && first + i in w.own ==> Matches(w.sys.handlers[first + i], coroutines[i]))
  }

  /** Each coroutine that has ended did so by its handler's own last command, or by the exception that killed it. */
  ghost predicate EndsLogged(log: seq<Action>, first: Hid, coroutines: seq<Coroutine>) {
    forall i :: 0 <= i < |coroutines| && !coroutines[i].Running? ==>
      Ending(first + i, coroutines[i].Returned?) in log
  }

  lemma EndedIsLogged(w: World, h: Hid, normally: bool)
    requires w.Ended(h, normally)
    ensures Ending(h, normally) in w.log
  {
    var before :| EndsWith(w.log, before, Ending(h, normally));
    assert w.log[|before|] == Ending(h, normally);
  }

  lemma OneMoreEnding(log: seq<Action>, later: seq<Action>, first: Hid, coroutines: seq<Coroutine>,
                      i: nat, c: Coroutine)
    requires EndsLogged(log, first, coroutines) && log <= later && i < |coroutines|
    requires !c.Running? ==> Ending(first + i, c.Returned?) in later
    ensures EndsLogged(later, first, coroutines[i := c])
  {
    assert forall a :: a in log ==> a in later;
  }

  /** The positions of the coroutines still running. */
  function StillRunning(coroutines: seq<Coroutine>): seq<nat> {
    if coroutines == [] then []
    else
      var n := |coroutines| - 1;
      StillRunning(coroutines[..n]) + if coroutines[n].Running? then [n] else []
  }

  lemma {:induction false} StillRunningAre(coroutines: seq<Coroutine>)
    ensures forall i :: i in StillRunning(coroutines) <==> 0 <= i < |coroutines| && coroutines[i].Running?
  {
    if coroutines != [] {
      StillRunningAre(coroutines[..|coroutines| - 1]);
    }
  }

  lemma OneStillRunning(coroutines: seq<Coroutine>, k: nat)
    requires k < |StillRunning(coroutines)|
    ensures var i := StillRunning(coroutines)[k]; i < |coroutines| && coroutines[i].Running?
  {
    StillRunningAre(coroutines);
    assert StillRunning(coroutines)[k] in StillRunning(coroutines);
  }

  lemma NoneStillRunning(coroutines: seq<Coroutine>)
    requires StillRunning(coroutines) == []
    ensures forall i :: 0 <= i < |coroutines| ==> !coroutines[i].Running?
  {
    StillRunningAre(coroutines);
    forall i | 0 <= i < |coroutines| ensures !coroutines[i].Running? {
      assert i !in StillRunning(coroutines);
    }
  }

  /** How many ended by an exception. */
  function Failures(coroutines: seq<Coroutine>): nat {
    if coroutines == [] then 0
    else Failures(coroutines[..|coroutines| - 1]) + Count(coroutines[|coroutines| - 1].Threw?)
  }

  lemma {:induction false} FailuresAfter(coroutines: seq<Coroutine>, i: nat, c: Coroutine)
    requires i < |coroutines| && !coroutines[i].Threw?
    ensures Failures(coroutines[i := c]) == Failures(coroutines) + Count(c.Threw?)
  {
    var n := |coroutines| - 1;
    if i < n {
      FailuresAfter(coroutines[..n], i, c);
      assert coroutines[i := c][..n] == coroutines[..n][i := c];
    } else {
      assert coroutines[i := c][..n] == coroutines[..n];
    }
  }

  lemma {:induction false} NoFailuresYet(coroutines: seq<Coroutine>)
    requires forall i :: 0 <= i < |coroutines| ==> !coroutines[i].Threw?
    ensures Failures(coroutines) == 0
  {
    if coroutines != [] {
      NoFailuresYet(coroutines[..|coroutines| - 1]);
    }
  }

  function CommandsLeft(coroutines: seq<Coroutine>): nat {
    if coroutines == [] then 0
    else CommandsLeft(coroutines[..|coroutines| - 1]) + Rank(coroutines[|coroutines| - 1])
  }

  lemma {:induction false} FewerLeft(coroutines: seq<Coroutine>, i: nat, c: Coroutine)
    requires i < |coroutines| && Rank(c) < Rank(coroutines[i])
    ensures CommandsLeft(coroutines[i := c]) < CommandsLeft(coroutines)
  {
    var n := |coroutines| - 1;
    if i < n {
      FewerLeft(coroutines[..n], i, c);
      assert coroutines[i := c][..n] == coroutines[..n][i := c];
    } else {
      assert coroutines[i := c][..n] == coroutines[..n];
    }
  }

  /** The batch as the loop sees it. */
  ghost function BoardOf(w: World): Board
    reads w, w.loop
  {
    Board(w.log, w.own, w.turns, w.loop.picks)
  }

  /** Resuming one coroutine, as a step of the whole batch. */
  method ResumeInBatch(w: World, settings: Config.Settings, h: Hid, c: Coroutine) returns (c': Coroutine)
    requires w.Valid() && h in w.own && Matches(w.sys.handlers[h], c) && w.cfg == CfgOf(settings)
    modifies w, w.redis
    ensures w.Valid() && old(w.log) <= w.log && Resumed(w, h, c') && Rank(c') < Rank(c)
    ensures w.Charged(Count(c'.Threw?))
    ensures ResumesTo(w.cfg, settings, h, old(BoardOf(w)), BoardOf(w))
  {
    hide Run, ResumesTo;
    TrailIsARun(w.cfg, w.trail, w.log);
    ghost var s, b := w.sys, BoardOf(w);
    c' := Resume(w, settings, h, c);
    TrailIsARun(w.cfg, w.trail, w.log);
    ResumedAs(w.cfg, settings, h, b, s, BoardOf(w), w.sys);
  }

  method ResumeOne(w: World, settings: Config.Settings, first: Hid, coroutines: seq<Coroutine>, i: nat)
    returns (after: seq<Coroutine>)
    requires UnderWay(w, first, coroutines) && w.cfg == CfgOf(settings)
    requires i < |coroutines| && coroutines[i].Running?
    modifies w, w.redis
    ensures UnderWay(w, first, after) && old(w.log) <= w.log
    ensures ResumesTo(w.cfg, settings, first + i, old(BoardOf(w)), BoardOf(w))
    ensures |after| == |coroutines| && after == coroutines[i := after[i]]
    ensures CommandsLeft(after) < CommandsLeft(coroutines)
    ensures !after[i].Running? ==> Ending(first + i, after[i].Returned?) in w.log
    ensures w.Charged(Count(after[i].Threw?))
  {
    hide ResumesTo;
    var c := ResumeInBatch(w, settings, first + i, coroutines[i]);
    FewerLeft(coroutines, i, c);
    after := coroutines[i := c];
    if !c.Running? {
      EndedIsLogged(w, first + i, c.Returned?);
    }
  }

  lemma {:induction false} StillRunningIsRunning(own: set<Hid>, first: Hid, coroutines: seq<Coroutine>)
    requires forall i :: 0 <= i < |coroutines| ==> (first + i in own <==> coroutines[i].Running?)
    ensures StillRunning(coroutines) == RunningOf(own, first, |coroutines|)
  {
    if coroutines != [] {
      StillRunningIsRunning(own, first, coroutines[..|coroutines| - 1]);
    }
  }

  /** The loop resumes the coroutine it picks among those still running. */
  method GatherRound(w: World, settings: Config.Settings, first: Hid, coroutines: seq<Coroutine>, running: seq<nat>)
    returns (after: seq<Coroutine>, ghost i: nat)
    requires UnderWay(w, first, coroutines) && w.cfg == CfgOf(settings)
    requires running == StillRunning(coroutines) && running != []
    modifies w, w.redis, w.loop
    ensures UnderWay(w, first, after) && old(w.log) <= w.log && CommandsLeft(after) < CommandsLeft(coroutines)
    ensures i < |coroutines| == |after| && after == coroutines[i := after[i]] && coroutines[i].Running?
    ensures !after[i].Running? ==> Ending(first + i, after[i].Returned?) in w.log
    ensures w.Charged(Count(after[i].Threw?))
    ensures RoundsTo(w.cfg, settings, first, |after|, old(BoardOf(w)), BoardOf(w))
  {
    hide ResumesTo, RoundsTo;
    ghost var b := BoardOf(w);
    var k := w.loop.Pick(|running|);
    OneStillRunning(coroutines, k);
    StillRunningIsRunning(w.own, first, coroutines);
    i := running[k];
    after := ResumeOne(w, settings, first, coroutines, running[k]);
    OneRound(w.cfg, settings, first, |after|, b, k, BoardOf(w));
  }

  /**
    asyncio.gather: until all have ended, resume whichever coroutine the loop picks.
    What it logs, and in which order, is what so many rounds of picking make of the
    batch.
   */
  method Gather(w: World, settings: Config.Settings, first: Hid, begun: seq<Coroutine>)
    returns (coroutines: seq<Coroutine>, ghost rounds: nat)
    requires UnderWay(w, first, begun) && w.cfg == CfgOf(settings)
    requires forall i :: 0 <= i < |begun| ==> begun[i].Running?
    modifies w, w.redis, w.loop
    ensures w.Valid() && old(w.log) <= w.log && w.own == {} && EndsLogged(w.log, first, coroutines)
    ensures |coroutines| == |begun| && forall i :: 0 <= i < |coroutines| ==> !coroutines[i].Running?
    ensures w.Charged(Failures(coroutines))
    ensures Gathered(w.cfg, settings, first, |begun|, old(BoardOf(w)), rounds, BoardOf(w))
  {
    hide Gathered, RoundsTo;
    coroutines, rounds := begun, 0;
    NoFailuresYet(begun);
    NoRoundYet(w.cfg, settings, first, |begun|, BoardOf(w));
    var running := StillRunning(coroutines);
    while running != []
      invariant UnderWay(w, first, coroutines) && |coroutines| == |begun| && old(w.log) <= w.log
      invariant EndsLogged(w.log, first, coroutines) && w.Charged(Failures(coroutines))
      invariant running == StillRunning(coroutines)
      invariant Gathered(w.cfg, settings, first, |begun|, old(BoardOf(w)), rounds, BoardOf(w))
      decreases CommandsLeft(coroutines)
    {
      ghost var before, b, i := coroutines, BoardOf(w), 0;
      coroutines, i := GatherRound(w, settings, first, coroutines, running);
      OneMoreEnding(b.log, w.log, first, before, i, coroutines[i]);
      FailuresAfter(before, i, coroutines[i]);
      AnotherRound(w.cfg, settings, first, |begun|, old(BoardOf(w)), rounds, b, BoardOf(w));
      rounds := rounds + 1;
      running := StillRunning(coroutines);
    }
    NoneStillRunning(coroutines);
    assert forall h :: h in w.own ==> coroutines[h - first].Running?;
  }
}
