/**
  The queue functions (app/queue.py) as a worker runs them: every Redis command
  is an await, at which the rest of the system may run and the command may raise.
  Class `World` keeps the Redis it talks to beside the state machine of module
  Protocol; each function is proved to take the step the machine takes.
 */
module Queue {
  import opened RedisStore
  import opened Protocol
  import opened Invariants
  import opened Results
  import Config

  /** An await: what everybody else does meanwhile, whether the command then raises, what dispatch answers. */
  datatype Turn = Turn(others: seq<Action>, raises: bool, answer: bool)

  /** The next await; after the recorded ones nothing raises. */
  function NextTurn(turns: seq<Turn>): Turn {
    if turns == [] then Turn([], false, true) else turns[0]
  }

  function LaterTurns(turns: seq<Turn>): seq<Turn> {
    if turns == [] then [] else turns[1..]
  }

  /** How many of the awaits raise. */
  function Raises(turns: seq<Turn>): nat {
    if turns == [] then 0 else Count(turns[0].raises) + Raises(turns[1..])
  }

  function Count(b: bool): nat {
    if b then 1 else 0
  }

  datatype ClaimAnswer = Won | AlreadyDelivered | InProgress

  /** The action is not a step of one of our own handlers. */
  predicate Outside(a: Action, own: set<Hid>) {
    (a.Go? || a.Answer? || a.Kill?) ==> a.h !in own
  }

  function OutsideOnly(actions: seq<Action>, own: set<Hid>): seq<Action> {
    if actions == [] then []
    else
      var a := actions[|actions| - 1];
      OutsideOnly(actions[..|actions| - 1], own) + if Outside(a, own) then [a] else []
  }

  /** Same place in `handle`, same entry, same event; only clocks may have moved on. */
  predicate SamePlace(before: Handler, after: Handler) {
    && after.entry == before.entry && after.event == before.event && after.pc == before.pc
    && after.sleeping >= before.sleeping
  }

  lemma OutsideLeavesOwn(cfg: Cfg, s: State, a: Action, own: set<Hid>, h: Hid)
    requires Inv(cfg, s) && Outside(a, own) && h in own && h in s.handlers
    ensures var s' := Step(cfg, s, a); h in s'.handlers && SamePlace(s.handlers[h], s'.handlers[h])
  {
    var s' := Step(cfg, s, a);
    if Enabled(cfg, s, a) {
      if a.Go? {
        OwnOutline(cfg, s, a.h);
      } else {
        OthersOutline(cfg, s, a);
        assert Lineage(s, a, s', h);
      }
    }
  }

  /** The states a run goes through: each is one step after the one before. */
  ghost predicate Trail(cfg: Cfg, states: seq<State>, log: seq<Action>) {
    && |states| == |log| + 1 && states[0] == Init
    && forall i {:trigger log[i]} :: 0 <= i < |log| ==> states[i + 1] == Step(cfg, states[i], log[i])
  }

  lemma {:induction false} TrailIsARun(cfg: Cfg, states: seq<State>, log: seq<Action>)
    requires Trail(cfg, states, log)
    ensures states[|log|] == Run(cfg, Init, log)
  {
    if log != [] {
      var n := |log| - 1;
      assert log[n] == log[|log| - 1];
      TrailIsARun(cfg, states[..n + 1], log[..n]);
    }
  }

  function Ending(h: Hid, normally: bool): Action {
    if normally then Go(h) else Kill(h)
  }

  ghost predicate EndsWith(log: seq<Action>, before: seq<Action>, a: Action) {
    log == before + [a]
  }

  /** The event loop's choice among `n` things that could run next. */
  function Choice(picks: seq<nat>, n: nat): nat
    requires n > 0
  {
    if picks == [] then 0 else picks[0] % n
  }

  function LaterPicks(picks: seq<nat>): seq<nat> {
    if picks == [] then [] else picks[1..]
  }

  class EventLoop {
    var picks: seq<nat>

    constructor (picks: seq<nat>)
      ensures this.picks == picks
    {
      this.picks := picks;
    }

    method Pick(n: nat) returns (k: nat)
      requires n > 0
      modifies this
      ensures k == Choice(old(picks), n) && k < n && picks == LaterPicks(old(picks))
    {
      if picks == [] {
        return 0;
      }
      k := picks[0] % n;
      picks := picks[1..];
    }
  }

  class World {
    const cfg: Cfg
    const redis: Redis
    const loop: EventLoop
    var sys: State
    var turns: seq<Turn>
    var own: set<Hid>
    ghost var trail: seq<State>
    ghost var log: seq<Action>

    /** Redis is where the machine says, and the machine got there by the logged steps. */
    ghost predicate Valid()
      reads this, redis
    {
      redis.View() == sys.store && Followed() && own <= sys.handlers.Keys
    }

    ghost predicate Followed()
      reads this
    {
      Trail(cfg, trail, log) && sys == trail[|log|]
    }

    constructor (cfg: Cfg, turns: seq<Turn>, picks: seq<nat>)
      ensures Valid() && fresh(redis) && fresh(loop) && this.cfg == cfg && sys == Init && own == {}
      ensures this.turns == turns && loop.picks == picks
    {
      this.cfg, this.turns, this.own := cfg, turns, {};
      this.sys, this.trail, this.log := Init, [Init], [];
      this.loop := new EventLoop(picks);
      this.redis := new Redis();
    }

    /** What the code did is a run of the machine. */
    lemma IsARun()
      requires Followed()
      ensures sys == Run(cfg, Init, log) && Inv(cfg, sys)
    {
      TrailIsARun(cfg, trail, log);
      Reachable(cfg, log);
    }

    /** The machine takes one step; Redis follows (`Load`) or has already followed. */
    method Take(a: Action)
      requires Followed()
      modifies this`sys, this`log, this`trail
      ensures Followed() && sys == Step(cfg, old(sys), a) && log == old(log) + [a]
    {
      sys := Step(cfg, sys, a);
      log := log + [a];
      trail := trail + [sys];
      assert forall i :: 0 <= i < |old(log)| ==> log[i] == old(log)[i];
    }

    /** The server accepts the expiry of claims and of markers. */
    predicate Lasting() {
      cfg.claimTtl > 0.0 && cfg.deliveredTtl > 0.0
    }

    /** The key of `m` is there, with this value and expiry. */
    predicate HasKey(m: Mid, claim: Claim)
      reads this, redis
    {
      m in redis.claims && redis.claims[m] == claim
    }

    /** One await, and an exception exactly if it raised or the command was refused. */
    twostate predicate OneAwait(raised: bool, refused: bool)
      reads this
    {
      turns == LaterTurns(old(turns)) && (raised <==> NextTurn(old(turns)).raises || refused)
    }

    /** As many awaits have raised since as handlers failed. */
    twostate predicate Paid(failures: nat)
      reads this
    {
      Raises(old(turns)) == Raises(turns) + failures
    }

    /**
      Each await that raised since has made one handler fail, and no handler failed
      otherwise, unless the server refused its claim or its marker.
     */
    twostate predicate Charged(failures: nat)
      reads this
    {
      && Raises(turns) <= Raises(old(turns)) <= Raises(turns) + failures
      && (Lasting() ==> Paid(failures))
    }

    /** Our handlers are where they were. */
    twostate predicate OwnUntouched()
      reads this
    {
      && own == old(own)
      && own <= old(sys.handlers.Keys) && own <= sys.handlers.Keys
      && (forall h :: h in own ==> SamePlace(old(sys.handlers[h]), sys.handlers[h]))
    }

    /** What the rest of the system did during the await since. */
    twostate function Heard(): seq<Action>
      reads this
    {
      OutsideOnly(NextTurn(old(turns)).others, old(own))
    }

    /** One await, and then `a`. */
    twostate predicate Logged(a: Action)
      reads this
    {
      log == old(log) + Heard() + [a]
    }

    /** The rest of the system runs. */
    method Others(others: seq<Action>)
      requires Valid()
      modifies this`sys, this`log, this`trail, redis
      ensures Valid() && OwnUntouched() && log == old(log) + OutsideOnly(others, own)
    {
      for i := 0 to |others|
        invariant Followed() && OwnUntouched() && log == old(log) + OutsideOnly(others[..i], own)
      {
        assert others[..i + 1][..i] == others[..i];
        if Outside(others[i], own) {
          IsARun();
          ghost var before := sys;
          Take(others[i]);
          forall h | h in own ensures h in sys.handlers && SamePlace(before.handlers[h], sys.handlers[h]) {
            OutsideLeavesOwn(cfg, before, others[i], own, h);
          }
        }
      }
      assert others[..|others|] == others;
      redis.Load(sys.store);
    }

    /** A command raised: that is the end of the handler, and Redis is as it was. */
    method Fail(h: Hid)
      requires Valid() && h in own
      modifies this`sys, this`log, this`trail, this`own
      ensures Valid() && log == old(log) + [Kill(h)] && OwnExcept(h) && Ended(h, false)
    {
      own := own - {h};
      ghost var before := log;
      Take(Kill(h));
      assert EndsWith(log, before, Ending(h, false));
    }

    /** An await inside the handler `h`. If it raises, that is the end of the handler. */
    method Await(h: Hid) returns (r: Result<bool>)
      requires Valid() && h in own
      modifies this, redis
      ensures Valid()
      ensures r.Success? ==> OwnUntouched() && r.value == NextTurn(old(turns)).answer && log == old(log) + Heard()
      ensures r.Raised? ==> OwnExcept(h) && Ended(h, false) && Logged(Kill(h))
      ensures OneAwait(r.Raised?, false)
    {
      var turn := NextTurn(turns);
      turns := LaterTurns(turns);
      Others(turn.others);
      if turn.raises {
        Fail(h);
        return Raised;
      }
      return Success(turn.answer);
    }

    /** An await outside any handler: the command may raise, and then it has done nothing. */
    method AwaitIdle(command: Command) returns (r: Result<()>)
      requires Valid()
      modifies this, redis, redis.monitor
      ensures Valid() && log == old(log) + Heard() && OwnUntouched()
      ensures redis.monitor.calls == old(redis.monitor.calls) + if r.Raised? then [Broke(command)] else []
      ensures OneAwait(r.Raised?, false) && Raises(turns) + Count(r.Raised?) == Raises(old(turns))
    {
      var turn := NextTurn(turns);
      turns := LaterTurns(turns);
      Others(turn.others);
      if turn.raises {
        redis.monitor.Note(Broke(command));
        return Raised;
      }
      return Success(());
    }

    /** A command that is several of the machine's steps at one instant. */
    method TakeAll(actions: seq<Action>)
      requires Followed()
      modifies this`sys, this`log, this`trail
      ensures Followed() && sys == Run(cfg, old(sys), actions) && log == old(log) + actions
    {
      for i := 0 to |actions|
        invariant Followed() && sys == Run(cfg, old(sys), actions[..i]) && log == old(log) + actions[..i]
      {
        assert actions[..i + 1][..i] == actions[..i];
        Take(actions[i]);
      }
      assert actions[..|actions|] == actions;
    }

    /** The handler `h` ended, by its own last command or by an exception. */
    ghost predicate Ended(h: Hid, normally: bool)
      reads this
    {
      exists before :: EndsWith(log, before, Ending(h, normally))
    }

    /** The handler `h` is gone; the others of ours are where they were. */
    twostate predicate OwnExcept(h: Hid)
      reads this
    {
      && own == old(own) - {h} && h !in sys.handlers
      && own <= old(sys.handlers.Keys) && own <= sys.handlers.Keys
      && (forall k :: k in own ==> SamePlace(old(sys.handlers[k]), sys.handlers[k]))
    }

    /** The handler `h` went on to `pc`; the others of ours are where they were. */
    twostate predicate Moved(h: Hid, pc: Pc)
      reads this
    {
      && own == old(own) && h in own
      && own <= old(sys.handlers.Keys) && own <= sys.handlers.Keys
      && (forall k :: k in own && k != h ==> SamePlace(old(sys.handlers[k]), sys.handlers[k]))
      && SamePlace(old(sys.handlers[h]).(pc := pc), sys.handlers[h])
    }

    /** The handler's next command: Redis has run it, and the machine follows. */
    method Advance(h: Hid)
      requires h in own && own <= sys.handlers.Keys && Enabled(cfg, sys, Go(h))
      requires Followed()
      requires redis.View() == Effect(cfg, sys.store, sys.handlers[h])
      modifies this`sys, this`log, this`trail, this`own
      ensures Valid() && log == old(log) + [Go(h)]
      ensures After(old(sys.store), old(sys.handlers[h])).Continue? ==>
        Moved(h, After(old(sys.store), old(sys.handlers[h])).pc)
      ensures After(old(sys.store), old(sys.handlers[h])).Finished? ==> OwnExcept(h) && Ended(h, true)
    {
      OwnOutline(cfg, sys, h);
      if After(sys.store, sys.handlers[h]).Finished? {
        own := own - {h};
      }
      ghost var before := log;
      Take(Go(h));
      assert EndsWith(log, before, Ending(h, true));
    }

    /** dispatch returned; the event's retry_count moves with a False answer. */
    method Settle(h: Hid, ok: bool)
      requires Valid() && h in own && sys.handlers[h].pc.Posting?
      modifies this`sys, this`log, this`trail
      ensures Valid() && log == old(log) + [Protocol.Answer(h, ok)] && own <= sys.handlers.Keys && own == old(own)
      ensures forall k :: k in own && k != h ==> SamePlace(old(sys.handlers[k]), sys.handlers[k])
      ensures SamePlace(AfterAnswer(cfg, old(sys.handlers[h]), ok), sys.handlers[h])
    {
      Take(Protocol.Answer(h, ok));
    }

    /** The clock moves on by itself. */
    method Wait(d: real)
      requires Valid() && d >= 0.0
      modifies this`sys, this`log, this`trail, redis
      ensures Valid() && log == old(log) + [Tick(d)] && OwnUntouched()
      ensures sys == TickStep(old(sys), d)
    {
      Take(Tick(d));
      redis.Load(sys.store);
    }
  }

  /** The handler `h` of this worker is at `pc`. */
  ghost predicate At(w: World, h: Hid, pc: Pc)
    reads w, w.redis
  {
    w.Valid() && h in w.own && w.sys.handlers[h].pc == pc
  }

  method ClaimKey(w: World, settings: Config.Settings, h: Hid, m: Mid) returns (r: Result<bool>)
    requires At(w, h, SetNx) && w.sys.handlers[h].event.mid == m && w.cfg == CfgOf(settings)
    modifies w, w.redis
    ensures w.Valid() && w.Logged(Ending(h, r.Success?))
    ensures if r.Success? then w.Moved(h, if r.value then Post else GetKey) else w.OwnExcept(h) && w.Ended(h, false)
    ensures w.OneAwait(r.Raised?, settings.ClaimTtlSeconds() <= 0)
    ensures r == Success(true) ==> w.HasKey(m, Claim(InFlight, w.redis.now + settings.ClaimTtlSeconds() as real))
  {
    var _ :- w.Await(h);
    var reply := w.redis.SetClaim(m, settings.ClaimTtlSeconds() as real);
    if reply.InvalidExpiry? {
      w.Fail(h);
      return Raised;
    }
    w.Advance(h);
    return Success(reply.Newly?);
  }

  method ReadKey(w: World, h: Hid, m: Mid) returns (r: Result<Reply>)
    requires At(w, h, GetKey) && w.sys.handlers[h].event.mid == m
    modifies w, w.redis
    ensures w.Valid() && w.Logged(Ending(h, r.Success?))
    ensures if r == Success(Text(Done)) then w.Moved(h, Pc.XAck(AlreadySent))
            else w.OwnExcept(h) && w.Ended(h, r.Success?)
    ensures w.OneAwait(r.Raised?, false)
  {
    var _ :- w.Await(h);
    var current := w.redis.GetClaim(m);
    w.Advance(h);
    return Success(current);
  }

  /** SET NX, and GET if that found a key. */
  method BeginDelivery(w: World, settings: Config.Settings, h: Hid, m: Mid) returns (r: Result<ClaimAnswer>)
    requires At(w, h, SetNx) && w.sys.handlers[h].event.mid == m && w.cfg == CfgOf(settings)
    modifies w, w.redis
    ensures w.Valid() && old(w.log) <= w.log
    ensures r == Success(Won) ==> w.Moved(h, Post)
    ensures r == Success(AlreadyDelivered) ==> w.Moved(h, Pc.XAck(AlreadySent))
    ensures r == Success(InProgress) || r.Raised? ==> w.OwnExcept(h) && w.Ended(h, r.Success?)
    ensures r == Success(Won) ==> w.HasKey(m, Claim(InFlight, w.redis.now + settings.ClaimTtlSeconds() as real))
    ensures if settings.ClaimTtlSeconds() > 0 then w.Paid(Count(r.Raised?)) else r.Raised? && w.Charged(1)
  {
    var won :- ClaimKey(w, settings, h, m);
    if won {
      return Success(Won);
    }
    var current :- ReadKey(w, h, m);
    return Success(if current == Text(Done) then AlreadyDelivered else InProgress);
  }

  /** The marker takes the claim's place, for as long as DELIVERED_TTL_SECONDS says. */
  method CompleteDelivery(w: World, settings: Config.Settings, h: Hid, m: Mid) returns (r: Result<()>)
    requires At(w, h, Complete) && w.sys.handlers[h].event.mid == m && w.cfg == CfgOf(settings)
    modifies w, w.redis
    ensures w.Valid() && w.Logged(Ending(h, r.Success?))
    ensures if r.Success? then w.Moved(h, Pc.XAck(Sent)) else w.OwnExcept(h) && w.Ended(h, false)
    ensures w.OneAwait(r.Raised?, settings.deliveredTtlSeconds <= 0)
    ensures r.Success? ==> w.HasKey(m, Claim(Done, w.redis.now + settings.deliveredTtlSeconds as real))
  {
    var _ :- w.Await(h);
    var accepted := w.redis.SetDone(m, settings.deliveredTtlSeconds as real);
    if !accepted {
      w.Fail(h);
      return Raised;
    }
    w.Advance(h);
    return Success(());
  }

  /** Called after dead_letter and before enqueue_event. */
  method AbandonDelivery(w: World, h: Hid, m: Mid) returns (r: Result<()>)
    requires At(w, h, ParkAbandon) || At(w, h, Abandon)
    requires w.sys.handlers[h].event.mid == m
    modifies w, w.redis
    ensures w.Valid() && w.Logged(Ending(h, r.Success?))
    ensures if r.Success? then w.Moved(h, if old(w.sys.handlers[h]).pc.Abandon? then Requeue else XAck(Parked))
            else w.OwnExcept(h) && w.Ended(h, false)
    ensures w.OneAwait(r.Raised?, false)
    ensures r.Success? ==> m !in w.redis.claims
  {
    var _ :- w.Await(h);
    w.redis.DeleteClaim(m);
    w.Advance(h);
    return Success(());
  }

  method DeadLetter(w: World, h: Hid, event: Event) returns (r: Result<()>)
    requires At(w, h, Park) && w.sys.handlers[h].event == event
    modifies w, w.redis
    ensures w.Valid() && w.Logged(Ending(h, r.Success?))
    ensures if r.Success? then w.Moved(h, ParkAbandon) else w.OwnExcept(h) && w.Ended(h, false)
    ensures w.OneAwait(r.Raised?, false)
    ensures r.Success? ==> w.redis.dlq != [] && w.redis.dlq[|w.redis.dlq| - 1] == event
  {
    var _ :- w.Await(h);
    w.redis.XAddDlq(event);
    w.Advance(h);
    return Success(());
  }

  method EnqueueEvent(w: World, h: Hid, event: Event) returns (r: Result<EntryId>)
    requires At(w, h, Requeue) && w.sys.handlers[h].event == event
    modifies w, w.redis
    ensures w.Valid() && w.Logged(Ending(h, r.Success?))
    ensures if r.Success? then w.Moved(h, Pc.XAck(Requeued)) else w.OwnExcept(h) && w.Ended(h, false)
    ensures w.OneAwait(r.Raised?, false)
    ensures r.Success? ==> r.value == w.redis.lastId && r.value in w.redis.stream
    ensures r.Success? ==> w.redis.stream[r.value] == Json(event)
  {
    var _ :- w.Await(h);
    var id := w.redis.XAdd(Json(event));
    w.Advance(h);
    return Success(id);
  }

  method ClearPending(w: World, h: Hid, entry: EntryId, ghost why: Reason) returns (r: Result<()>)
    requires At(w, h, Pc.XAck(why)) && w.sys.handlers[h].entry == entry
    modifies w, w.redis
    ensures w.Valid() && w.Logged(Ending(h, r.Success?))
    ensures if r.Success? then w.Moved(h, Pc.XDel(why)) else w.OwnExcept(h) && w.Ended(h, false)
    ensures w.OneAwait(r.Raised?, false)
    ensures r.Success? ==> entry !in w.redis.pending
  {
    var _ :- w.Await(h);
    w.redis.XAck(entry);
    w.Advance(h);
    return Success(());
  }

  method DeleteEntry(w: World, h: Hid, entry: EntryId, ghost why: Reason) returns (r: Result<()>)
    requires At(w, h, Pc.XDel(why)) && w.sys.handlers[h].entry == entry
    modifies w, w.redis
    ensures w.Valid() && w.Logged(Ending(h, r.Success?))
    ensures w.OwnExcept(h) && w.Ended(h, r.Success?)
    ensures w.OneAwait(r.Raised?, false)
    ensures r.Success? ==> entry !in w.redis.stream
  {
    var _ :- w.Await(h);
    w.redis.XDel(entry);
    w.Advance(h);
    return Success(());
  }

  /** XACK, then XDEL: the end of the handler. */
  method Ack(w: World, h: Hid, entry: EntryId, ghost why: Reason) returns (r: Result<()>)
    requires At(w, h, Pc.XAck(why)) && w.sys.handlers[h].entry == entry
    modifies w, w.redis
    ensures w.Valid() && old(w.log) <= w.log
    ensures w.OwnExcept(h) && w.Ended(h, r.Success?)
    ensures w.Paid(Count(r.Raised?))
  {
    var _ :- ClearPending(w, h, entry, why);
    r := DeleteEntry(w, h, entry, why);
  }
}
