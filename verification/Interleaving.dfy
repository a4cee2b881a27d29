/**
  What the event loop makes of one batch (app/worker.py:199-202), as a function of
  what it picks: which coroutine it resumes next, and what happens at the await.
  Any order of the handlers' steps is some choice of picks, and whatever order it
  is, the log of the batch is one of the schedules module Batch is about.
 */
module Interleaving {
  import opened RedisStore
  import opened Protocol
  import opened Invariants
  import opened Queue
  import opened Batch
  import Config
  import Reclaim

  // ----- resuming one coroutine -----

  /** How much longer a handler sleeps that has slept for `slept`. */
  function Rest(settings: Config.Settings, event: Event, slept: real): real {
    var rest := settings.Backoff(event.retry) - slept;
    if rest >= 0.0 then rest else 0.0
  }

  /** The handler's own step: its command, its answer, or its death if the await raised or the server refused. */
  function OwnAction(cfg: Cfg, h: Hid, pc: Pc, turn: Turn): Action {
    if pc.Post? then Go(h)
    else if turn.raises || Refused(cfg, pc) then Kill(h)
    else if pc.Posting? then Answer(h, turn.answer)
    else Go(h)
  }

  /** dispatch is entered without an await. */
  function TurnsAfter(pc: Pc, turns: seq<Turn>): seq<Turn> {
    if pc.Post? then turns else LaterTurns(turns)
  }

  /** The log once the handler `hd` has been resumed: its wait, what others did during its await, its own step. */
  function ResumedLog(cfg: Cfg, settings: Config.Settings, h: Hid, hd: Handler, own: set<Hid>, turn: Turn,
                      log: seq<Action>): seq<Action> {
    if hd.pc.Post? then log + [Go(h)]
    else
      (if hd.pc.Sleep? then log + [Tick(Rest(settings, hd.event, hd.sleeping))] else log)
      + OutsideOnly(turn.others, own) + [OwnAction(cfg, h, hd.pc, turn)]
  }

  /** A batch under way: the run so far, the handlers still running, the awaits and the choices to come. */
  datatype Board = Board(log: seq<Action>, own: set<Hid>, turns: seq<Turn>, picks: seq<nat>)

  function ResumedBoard(cfg: Cfg, settings: Config.Settings, h: Hid, b: Board): Board {
    var s := Run(cfg, Init, b.log);
    if h !in s.handlers then b
    else
      var log := ResumedLog(cfg, settings, h, s.handlers[h], b.own, NextTurn(b.turns), b.log);
      b.(log := log, turns := TurnsAfter(s.handlers[h].pc, b.turns),
         own := if h in Run(cfg, Init, log).handlers then b.own else b.own - {h})
  }

  lemma ResumedAs(cfg: Cfg, settings: Config.Settings, h: Hid, b: Board, s: State, b': Board, s': State)
    requires s == Run(cfg, Init, b.log) && s' == Run(cfg, Init, b'.log) && h in s.handlers
    requires b'.log == ResumedLog(cfg, settings, h, s.handlers[h], b.own, NextTurn(b.turns), b.log)
    requires b'.own == (if h in s'.handlers then b.own else b.own - {h}) && b'.picks == b.picks
    requires b'.turns == TurnsAfter(s.handlers[h].pc, b.turns)
    ensures ResumesTo(cfg, settings, h, b, b')
  {
  }

  /** Resuming `h` leads from `b` to `b'`. */
  ghost predicate ResumesTo(cfg: Cfg, settings: Config.Settings, h: Hid, b: Board, b': Board) {
    ResumedBoard(cfg, settings, h, b) == b'
  }

  // ----- the loop -----

  /** The positions of those still running, of the `n` handlers numbered from `first`. */
  function RunningOf(own: set<Hid>, first: Hid, n: nat): seq<nat> {
    if n == 0 then [] else RunningOf(own, first, n - 1) + if first + n - 1 in own then [n - 1] else []
  }

  /** The loop goes around once: the coroutine it picks is resumed. */
  function Round(cfg: Cfg, settings: Config.Settings, first: Hid, n: nat, b: Board): Board {
    var running := RunningOf(b.own, first, n);
    if running == [] then b
    else
      ResumedBoard(cfg, settings, first + running[Choice(b.picks, |running|)], b.(picks := LaterPicks(b.picks)))
  }

  function Loop(cfg: Cfg, settings: Config.Settings, first: Hid, n: nat): Board -> Board {
    b => Round(cfg, settings, first, n, b)
  }

  function Iterate(f: Board -> Board, b: Board, k: nat): Board {
    if k == 0 then b else f(Iterate(f, b, k - 1))
  }

  function Rounds(cfg: Cfg, settings: Config.Settings, first: Hid, n: nat, b: Board, k: nat): Board {
    Iterate(Loop(cfg, settings, first, n), b, k)
  }

  /** In `k` rounds the loop gets from `b` to `b'`. */
  ghost predicate Gathered(cfg: Cfg, settings: Config.Settings, first: Hid, n: nat, b: Board, k: nat, b': Board) {
    Rounds(cfg, settings, first, n, b, k) == b'
  }

  ghost predicate RoundsTo(cfg: Cfg, settings: Config.Settings, first: Hid, n: nat, b: Board, b': Board) {
    Round(cfg, settings, first, n, b) == b'
  }

  lemma NoRoundYet(cfg: Cfg, settings: Config.Settings, first: Hid, n: nat, b: Board)
    ensures Gathered(cfg, settings, first, n, b, 0, b)
  {
  }

  lemma OneRound(cfg: Cfg, settings: Config.Settings, first: Hid, n: nat, b: Board, k: nat, b': Board)
    requires RunningOf(b.own, first, n) != [] && k == Choice(b.picks, |RunningOf(b.own, first, n)|)
    requires ResumesTo(cfg, settings, first + RunningOf(b.own, first, n)[k], b.(picks := LaterPicks(b.picks)), b')
    ensures RoundsTo(cfg, settings, first, n, b, b')
  {
  }

  lemma AnotherRound(cfg: Cfg, settings: Config.Settings, first: Hid, n: nat, start: Board, k: nat, b: Board,
                     b': Board)
    requires Gathered(cfg, settings, first, n, start, k, b) && RoundsTo(cfg, settings, first, n, b, b')
    ensures Gathered(cfg, settings, first, n, start, k + 1, b')
  {
    assert Rounds(cfg, settings, first, n, start, k) == b;
    assert Rounds(cfg, settings, first, n, start, k + 1) == Round(cfg, settings, first, n, b);
  }

  lemma {:induction false} FixedPoint(f: Board -> Board, b: Board, j: nat, k: nat)
    requires j <= k && f(Iterate(f, b, j)) == Iterate(f, b, j)
    ensures Iterate(f, b, k) == Iterate(f, b, j)
  {
    if j < k {
      FixedPoint(f, b, j, k - 1);
    }
  }

  lemma {:induction false} RunningIsFound(own: set<Hid>, first: Hid, n: nat, i: nat)
    requires i < n && first + i in own
    ensures var k := |RunningOf(own, first, i)|; k < |RunningOf(own, first, n)| && RunningOf(own, first, n)[k] == i
  {
    if i < n - 1 {
      RunningIsFound(own, first, n - 1, i);
    }
  }

  // ----- any order -----

  /** One resumption: of which coroutine, and what happens at its await. */
  datatype Beat = Beat(who: nat, turn: Turn)

  /** The beats in their order: the log they make, the turns they take and the picks that name them. */
  function Performed(cfg: Cfg, settings: Config.Settings, first: Hid, n: nat, log: seq<Action>, own: set<Hid>,
                     beats: seq<Beat>): Board {
    if beats == [] then Board(log, own, [], [])
    else
      var b := Performed(cfg, settings, first, n, log, own, beats[..|beats| - 1]);
      OneBeat(cfg, settings, first, b, beats[|beats| - 1])
  }

  function OneBeat(cfg: Cfg, settings: Config.Settings, first: Hid, b: Board, beat: Beat): Board {
    var h := first + beat.who;
    var after := ResumedBoard(cfg, settings, h, Board(b.log, b.own, [beat.turn], []));
    Board(after.log, after.own, b.turns + Taken(cfg, h, b.log, beat.turn),
          b.picks + [|RunningOf(b.own, first, beat.who)|])
  }

  /** The turn, unless the handler resumed has no await. */
  function Taken(cfg: Cfg, h: Hid, log: seq<Action>, turn: Turn): seq<Turn> {
    var s := Run(cfg, Init, log);
    if h in s.handlers && s.handlers[h].pc.Post? then [] else [turn]
  }

  /**
    Each beat is of a coroutine of the batch that is still running, and the rest of
    the system leaves the batch's handlers alone.
   */
  ghost predicate Playable(cfg: Cfg, settings: Config.Settings, first: Hid, n: nat, log: seq<Action>,
                           own: set<Hid>, beats: seq<Beat>) {
    beats == [] ||
    var before, beat := beats[..|beats| - 1], beats[|beats| - 1];
    && Playable(cfg, settings, first, n, log, own, before)
    && beat.who < n && first + beat.who in Performed(cfg, settings, first, n, log, own, before).own
    && LeavesAlone(beat.turn, own)
  }

  predicate LeavesAlone(turn: Turn, own: set<Hid>) {
    forall a :: a in turn.others ==> Outside(a, own)
  }

  ghost predicate Alive(cfg: Cfg, b: Board) {
    b.own <= Run(cfg, Init, b.log).handlers.Keys
  }

  predicate NotOf(actions: seq<Action>, h: Hid) {
    forall i :: 0 <= i < |actions| ==> Outside(actions[i], {h})
  }

  lemma {:induction false} HandlerStays(cfg: Cfg, s: State, actions: seq<Action>, h: Hid)
    requires Inv(cfg, s) && NotOf(actions, h) && h in s.handlers
    ensures Inv(cfg, Run(cfg, s, actions)) && h in Run(cfg, s, actions).handlers
  {
    if actions != [] {
      var before, a := actions[..|actions| - 1], actions[|actions| - 1];
      HandlerStays(cfg, s, before, h);
      OutsideLeavesOwn(cfg, Run(cfg, s, before), a, {h}, h);
      StepKeepsInv(cfg, Run(cfg, s, before), a);
    }
  }

  /** The actions that resuming a handler adds to the log. */
  function Added(cfg: Cfg, settings: Config.Settings, h: Hid, hd: Handler, own: set<Hid>, turn: Turn): seq<Action> {
    if hd.pc.Post? then [Go(h)]
    else
      (if hd.pc.Sleep? then [Tick(Rest(settings, hd.event, hd.sleeping))] else [])
      + OutsideOnly(turn.others, own) + [OwnAction(cfg, h, hd.pc, turn)]
  }

  lemma ResumedLogAdds(cfg: Cfg, settings: Config.Settings, h: Hid, hd: Handler, own: set<Hid>, turn: Turn,
                       log: seq<Action>)
    ensures ResumedLog(cfg, settings, h, hd, own, turn, log) == log + Added(cfg, settings, h, hd, own, turn)
  {
  }

  lemma {:induction false} OutsideOnlyIs(actions: seq<Action>, own: set<Hid>)
    ensures forall a :: a in OutsideOnly(actions, own) ==> a in actions && Outside(a, own)
  {
    if actions != [] {
      OutsideOnlyIs(actions[..|actions| - 1], own);
    }
  }

  lemma AddedIsNotOf(cfg: Cfg, settings: Config.Settings, h: Hid, hd: Handler, own: set<Hid>, turn: Turn, k: Hid)
    requires k in own && k != h
    ensures NotOf(Added(cfg, settings, h, hd, own, turn), k)
  {
    OutsideOnlyIs(turn.others, own);
    var added := Added(cfg, settings, h, hd, own, turn);
    forall i | 0 <= i < |added| ensures Outside(added[i], {k}) {
      assert added[i] in added;
    }
  }

  lemma ResumedStaysAlive(cfg: Cfg, settings: Config.Settings, h: Hid, b: Board)
    requires Alive(cfg, b) && h in b.own
    ensures Alive(cfg, ResumedBoard(cfg, settings, h, b))
  {
    var s := Run(cfg, Init, b.log);
    var turn := NextTurn(b.turns);
    var added := Added(cfg, settings, h, s.handlers[h], b.own, turn);
    ResumedLogAdds(cfg, settings, h, s.handlers[h], b.own, turn, b.log);
    Reclaim.RunConcat(cfg, Init, b.log, added);
    Reachable(cfg, b.log);
    forall k | k in b.own && k != h ensures k in Run(cfg, s, added).handlers {
      AddedIsNotOf(cfg, settings, h, s.handlers[h], b.own, turn, k);
      HandlerStays(cfg, s, added, k);
    }
  }

  /** Only the next turn matters to a resumption; the rest is left over. */
  lemma ResumedOnTurn(cfg: Cfg, settings: Config.Settings, h: Hid, b: Board, turn: Turn)
    requires h in Run(cfg, Init, b.log).handlers
    ensures ResumedBoard(cfg, settings, h, b.(turns := Taken(cfg, h, b.log, turn) + b.turns))
         == ResumedBoard(cfg, settings, h, Board(b.log, b.own, [turn], [])).(turns := b.turns, picks := b.picks)
  {
    var s := Run(cfg, Init, b.log);
    var taken := Taken(cfg, h, b.log, turn);
    if s.handlers[h].pc.Post? {
      assert taken + b.turns == b.turns;
    } else {
      assert LaterTurns(taken + b.turns) == b.turns;
    }
  }

  lemma RoundOn(cfg: Cfg, settings: Config.Settings, first: Hid, n: nat, b: Board, who: nat)
    requires who < n && first + who in b.own
    ensures Round(cfg, settings, first, n, b.(picks := [|RunningOf(b.own, first, who)|] + b.picks))
         == ResumedBoard(cfg, settings, first + who, b)
  {
    RunningIsFound(b.own, first, n, who);
    ChoiceOf(|RunningOf(b.own, first, who)|, b.picks, |RunningOf(b.own, first, n)|);
  }

  lemma ChoiceOf(k: nat, picks: seq<nat>, n: nat)
    requires k < n
    ensures Choice([k] + picks, n) == k && LaterPicks([k] + picks) == picks
  {
    assert k % n == k;
  }

  /** A batch with the turns and picks of `b` to come, and then some more. */
  function Given(at: Board, b: Board, turns: seq<Turn>, picks: seq<nat>): Board {
    Board(at.log, at.own, b.turns + turns, b.picks + picks)
  }

  /** Given its picks and turns first, the loop gets from `start` to `b` in `k` rounds and has the rest left over. */
  ghost predicate Leads(f: Board -> Board, start: Board, b: Board, k: nat) {
    forall turns, picks :: Iterate(f, Given(start, b, turns, picks), k) == Board(b.log, b.own, turns, picks)
  }

  ghost predicate LeadsAtOnce(f: Board -> Board, b: Board, p: Board, next: Board) {
    forall turns, picks :: f(Given(b, next, turns, picks)) == Board(p.log, p.own, turns, picks)
  }

  lemma LeadsNowhere(f: Board -> Board, start: Board)
    requires start.turns == [] && start.picks == []
    ensures Leads(f, start, start, 0)
  {
    forall turns, picks
      ensures Iterate(f, Given(start, start, turns, picks), 0) == Board(start.log, start.own, turns, picks)
    {
      assert [] + turns == turns && [] + picks == picks;
    }
  }

  lemma LeadsOn(f: Board -> Board, start: Board, b: Board, p: Board, next: Board, k: nat)
    requires Leads(f, start, b, k) && LeadsAtOnce(f, b, p, next)
    requires p.turns == b.turns + next.turns && p.picks == b.picks + next.picks
    ensures Leads(f, start, p, k + 1)
  {
    forall turns, picks
      ensures Iterate(f, Given(start, p, turns, picks), k + 1) == Board(p.log, p.own, turns, picks)
    {
      LeadsFurther(start, b, p, next, turns, picks);
      var later, chosen := next.turns + turns, next.picks + picks;
      assert Iterate(f, Given(start, b, later, chosen), k) == Board(b.log, b.own, later, chosen);
    }
  }

  lemma LeadsFurther(start: Board, b: Board, p: Board, next: Board, turns: seq<Turn>, picks: seq<nat>)
    requires p.turns == b.turns + next.turns && p.picks == b.picks + next.picks
    ensures Given(start, p, turns, picks) == Given(start, b, next.turns + turns, next.picks + picks)
    ensures Given(b, next, turns, picks) == Board(b.log, b.own, next.turns + turns, next.picks + picks)
  {
    assert b.turns + (next.turns + turns) == p.turns + turns;
    assert b.picks + (next.picks + picks) == p.picks + picks;
  }

  /** What one beat takes: its turn, if any, and the pick that names it. */
  function NextOf(cfg: Cfg, first: Hid, b: Board, beat: Beat): Board {
    Board(b.log, b.own, Taken(cfg, first + beat.who, b.log, beat.turn), [|RunningOf(b.own, first, beat.who)|])
  }

  lemma OneBeatIsARound(cfg: Cfg, settings: Config.Settings, first: Hid, n: nat, b: Board, beat: Beat,
                        turns: seq<Turn>, picks: seq<nat>)
    requires beat.who < n && first + beat.who in b.own && Alive(cfg, b)
    ensures Round(cfg, settings, first, n, Given(b, NextOf(cfg, first, b, beat), turns, picks))
         == OneBeat(cfg, settings, first, b, beat).(turns := turns, picks := picks)
  {
    var h := first + beat.who;
    ResumedOnTurn(cfg, settings, h, Board(b.log, b.own, turns, picks), beat.turn);
    RoundOn(cfg, settings, first, n, Board(b.log, b.own, Taken(cfg, h, b.log, beat.turn) + turns, picks), beat.who);
  }

  lemma OneBeatInTheLoop(cfg: Cfg, settings: Config.Settings, first: Hid, n: nat, b: Board, beat: Beat,
                         turns: seq<Turn>, picks: seq<nat>)
    requires beat.who < n && first + beat.who in b.own && Alive(cfg, b)
    ensures var p := OneBeat(cfg, settings, first, b, beat);
      Loop(cfg, settings, first, n)(Given(b, NextOf(cfg, first, b, beat), turns, picks))
      == Board(p.log, p.own, turns, picks)
  {
    OneBeatIsARound(cfg, settings, first, n, b, beat, turns, picks);
  }

  lemma BeatLeads(cfg: Cfg, settings: Config.Settings, first: Hid, n: nat, b: Board, beat: Beat)
    requires beat.who < n && first + beat.who in b.own && Alive(cfg, b)
    ensures LeadsAtOnce(Loop(cfg, settings, first, n), b, OneBeat(cfg, settings, first, b, beat),
                        NextOf(cfg, first, b, beat))
  {
    forall turns, picks {
      OneBeatInTheLoop(cfg, settings, first, n, b, beat, turns, picks);
    }
  }

  lemma BeatTakes(cfg: Cfg, settings: Config.Settings, first: Hid, b: Board, beat: Beat)
    requires first + beat.who in b.own && Alive(cfg, b)
    ensures var next, p := NextOf(cfg, first, b, beat), OneBeat(cfg, settings, first, b, beat);
      Alive(cfg, p) && p.turns == b.turns + next.turns && p.picks == b.picks + next.picks
  {
    ResumedStaysAlive(cfg, settings, first + beat.who, Board(b.log, b.own, [beat.turn], []));
  }

  /** The picks and turns of a performance lead the loop through it. */
  ghost predicate Gatherable(cfg: Cfg, settings: Config.Settings, first: Hid, n: nat, start: Board, p: Board, k: nat) {
    Alive(cfg, p) && Leads(Loop(cfg, settings, first, n), start, p, k)
  }

  lemma {:induction false} PerformanceIsGathered(cfg: Cfg, settings: Config.Settings, first: Hid, n: nat,
                                                 log: seq<Action>, own: set<Hid>, beats: seq<Beat>)
    requires own <= Run(cfg, Init, log).handlers.Keys && Playable(cfg, settings, first, n, log, own, beats)
    ensures Gatherable(cfg, settings, first, n, Board(log, own, [], []),
                       Performed(cfg, settings, first, n, log, own, beats), |beats|)
  {
    var start := Board(log, own, [], []);
    if beats == [] {
      LeadsNowhere(Loop(cfg, settings, first, n), start);
    } else {
      var before := beats[..|beats| - 1];
      PerformanceIsGathered(cfg, settings, first, n, log, own, before);
      AnotherBeat(cfg, settings, first, n, start, Performed(cfg, settings, first, n, log, own, before),
                  beats[|beats| - 1], |before|);
    }
  }

  lemma AnotherBeat(cfg: Cfg, settings: Config.Settings, first: Hid, n: nat, start: Board, b: Board, beat: Beat,
                    k: nat)
    requires beat.who < n && first + beat.who in b.own && Gatherable(cfg, settings, first, n, start, b, k)
    ensures Gatherable(cfg, settings, first, n, start, OneBeat(cfg, settings, first, b, beat), k + 1)
  {
    BeatLeads(cfg, settings, first, n, b, beat);
    BeatTakes(cfg, settings, first, b, beat);
    LeadsOn(Loop(cfg, settings, first, n), start, b, OneBeat(cfg, settings, first, b, beat),
            NextOf(cfg, first, b, beat), k);
  }

  // ----- the order of the steps -----

  /** One step for each beat, in their order: by the handler named, with the answer the beat says. */
  predicate InStep(first: Hid, beats: seq<Beat>, steps: seq<Action>) {
    && |steps| == |beats|
    && forall k :: 0 <= k < |beats| ==>
         By(steps[k], {first + beats[k].who}) && (steps[k].Answer? ==> steps[k].ok == beats[k].turn.answer)
  }

  lemma {:induction false} NoSteps(actions: seq<Action>, own: set<Hid>)
    requires forall a :: a in actions ==> Outside(a, own)
    ensures StepsOf(actions, own) == []
  {
    if actions != [] {
      assert actions[|actions| - 1] in actions;
      NoSteps(actions[..|actions| - 1], own);
    }
  }

  /** Resuming a handler adds one step of the batch's to the log, and that one is its own. */
  lemma AddedStep(cfg: Cfg, settings: Config.Settings, h: Hid, hd: Handler, now: set<Hid>, own: set<Hid>, turn: Turn)
    requires h in own && LeavesAlone(turn, own)
    ensures StepsOf(Added(cfg, settings, h, hd, now, turn), own) == [OwnAction(cfg, h, hd.pc, turn)]
  {
    var added, a := Added(cfg, settings, h, hd, now, turn), OwnAction(cfg, h, hd.pc, turn);
    var others := added[..|added| - 1];
    OutsideOnlyIs(turn.others, now);
    assert added == others + [a];
    assert forall x :: x in others ==> Outside(x, own);
    NoSteps(others, own);
  }

  ghost predicate Follows(first: Hid, log: seq<Action>, own: set<Hid>, beats: seq<Beat>, p: Board) {
    log <= p.log && p.own <= own && InStep(first, beats, StepsOf(p.log[|log|..], own))
  }

  lemma FollowsOn(first: Hid, log: seq<Action>, own: set<Hid>, beats: seq<Beat>, b: Board, p: Board, beat: Beat,
                  added: seq<Action>, a: Action)
    requires Follows(first, log, own, beats, b) && p.log == b.log + added && p.own <= b.own
    requires StepsOf(added, own) == [a] && By(a, {first + beat.who}) && (a.Answer? ==> a.ok == beat.turn.answer)
    ensures Follows(first, log, own, beats + [beat], p)
  {
    var since := b.log[|log|..];
    LaterSince(log, b.log, added);
    StepsOfConcat(since, added, own);
    InStepOn(first, beats, StepsOf(since, own), beat, a);
  }

  lemma LaterSince(log: seq<Action>, later: seq<Action>, added: seq<Action>)
    requires log <= later
    ensures log <= later + added && (later + added)[|log|..] == later[|log|..] + added
  {
  }

  lemma InStepOn(first: Hid, beats: seq<Beat>, steps: seq<Action>, beat: Beat, a: Action)
    requires InStep(first, beats, steps)
    requires By(a, {first + beat.who}) && (a.Answer? ==> a.ok == beat.turn.answer)
    ensures InStep(first, beats + [beat], steps + [a])
  {
  }

  /** One beat leads from `b` to `p`. */
  ghost predicate BeatsTo(cfg: Cfg, settings: Config.Settings, first: Hid, b: Board, beat: Beat, p: Board) {
    OneBeat(cfg, settings, first, b, beat) == p
  }

  lemma OneBeatAdds(cfg: Cfg, settings: Config.Settings, first: Hid, b: Board, beat: Beat)
    returns (p: Board, hd: Handler)
    requires Alive(cfg, b) && first + beat.who in b.own
    ensures BeatsTo(cfg, settings, first, b, beat, p) && Alive(cfg, p) && p.own <= b.own
    ensures p.log == b.log + Added(cfg, settings, first + beat.who, hd, b.own, beat.turn)
  {
    p, hd := OneBeat(cfg, settings, first, b, beat), Run(cfg, Init, b.log).handlers[first + beat.who];
    ResumedLogAdds(cfg, settings, first + beat.who, hd, b.own, beat.turn, b.log);
    BeatTakes(cfg, settings, first, b, beat);
  }

  ghost predicate Kept(cfg: Cfg, first: Hid, log: seq<Action>, own: set<Hid>, beats: seq<Beat>, p: Board) {
    Alive(cfg, p) && Follows(first, log, own, beats, p)
  }

  lemma AnotherStep(cfg: Cfg, settings: Config.Settings, first: Hid, log: seq<Action>, own: set<Hid>,
                    before: seq<Beat>, b: Board, beat: Beat)
    returns (p: Board)
    requires Kept(cfg, first, log, own, before, b)
    requires first + beat.who in b.own && LeavesAlone(beat.turn, own)
    ensures BeatsTo(cfg, settings, first, b, beat, p) && Kept(cfg, first, log, own, before + [beat], p)
  {
    hide BeatsTo, Run;
    var hd;
    p, hd := OneBeatAdds(cfg, settings, first, b, beat);
    var h := first + beat.who;
    AddedStep(cfg, settings, h, hd, b.own, own, beat.turn);
    FollowsOn(first, log, own, before, b, p, beat, Added(cfg, settings, h, hd, b.own, beat.turn),
              OwnAction(cfg, h, hd.pc, beat.turn));
  }

  lemma NothingYet(cfg: Cfg, first: Hid, log: seq<Action>, own: set<Hid>)
    requires own <= Run(cfg, Init, log).handlers.Keys
    ensures Kept(cfg, first, log, own, [], Board(log, own, [], []))
  {
    assert log[|log|..] == [];
  }

  lemma {:induction false} PerformedInStep(cfg: Cfg, settings: Config.Settings, first: Hid, n: nat,
                                           log: seq<Action>, own: set<Hid>, beats: seq<Beat>)
    requires own <= Run(cfg, Init, log).handlers.Keys && Playable(cfg, settings, first, n, log, own, beats)
    ensures Kept(cfg, first, log, own, beats, Performed(cfg, settings, first, n, log, own, beats))
  {
    hide Run, StepsOf, ResumedBoard, OneBeat, Kept;
    if beats == [] {
      NothingYet(cfg, first, log, own);
    } else {
      var before := beats[..|beats| - 1];
      PerformedInStep(cfg, settings, first, n, log, own, before);
      var b := Performed(cfg, settings, first, n, log, own, before);
      var p := AnotherStep(cfg, settings, first, log, own, before, b, beats[|beats| - 1]);
      assert before + [beats[|beats| - 1]] == beats;
    }
  }

  lemma ResumedAdds(cfg: Cfg, settings: Config.Settings, h: Hid, b: Board)
    ensures b.log <= ResumedBoard(cfg, settings, h, b).log
  {
    var s := Run(cfg, Init, b.log);
    if h in s.handlers {
      ResumedLogAdds(cfg, settings, h, s.handlers[h], b.own, NextTurn(b.turns), b.log);
    }
  }

  lemma RoundAdds(cfg: Cfg, settings: Config.Settings, first: Hid, n: nat, b: Board)
    ensures b.log <= Round(cfg, settings, first, n, b).log
  {
    var running := RunningOf(b.own, first, n);
    if running != [] {
      ResumedAdds(cfg, settings, first + running[Choice(b.picks, |running|)], b.(picks := LaterPicks(b.picks)));
    }
  }

  lemma {:induction false} IterateAdds(f: Board -> Board, b: Board, j: nat, k: nat)
    requires j <= k && forall x: Board :: x.log <= f(x).log
    ensures Iterate(f, b, j).log <= Iterate(f, b, k).log
  {
    if j < k {
      IterateAdds(f, b, j, k - 1);
    }
  }

  lemma RoundsAdd(cfg: Cfg, settings: Config.Settings, first: Hid, n: nat, b: Board, j: nat, k: nat)
    requires j <= k
    ensures Rounds(cfg, settings, first, n, b, j).log <= Rounds(cfg, settings, first, n, b, k).log
  {
    forall x: Board ensures x.log <= Loop(cfg, settings, first, n)(x).log {
      RoundAdds(cfg, settings, first, n, x);
    }
    IterateAdds(Loop(cfg, settings, first, n), b, j, k);
  }

  /**
    Every order happens. For whatever list of coroutines, each still running when its
    turn comes, there are picks with which the loop resumes them in that order: the
    log of the batch begins with `so`, in which its own steps are those, one for each
    and in that order, however many rounds the loop takes to its end.
   */
  lemma {:induction false} EveryOrderIsGathered(cfg: Cfg, settings: Config.Settings, first: Hid, n: nat,
                                                log: seq<Action>, own: set<Hid>, beats: seq<Beat>)
    returns (turns: seq<Turn>, picks: seq<nat>, so: seq<Action>)
    requires own <= Run(cfg, Init, log).handlers.Keys && Playable(cfg, settings, first, n, log, own, beats)
    ensures log <= so && InStep(first, beats, StepsOf(so[|log|..], own))
    ensures forall rounds, end ::
      Gathered(cfg, settings, first, n, Board(log, own, turns, picks), rounds, end) && end.own == {} ==> so <= end.log
  {
    var p := Performed(cfg, settings, first, n, log, own, beats);
    turns, picks, so := p.turns, p.picks, p.log;
    var start := Board(log, own, turns, picks);
    PerformedInStep(cfg, settings, first, n, log, own, beats);
    PerformanceIsGathered(cfg, settings, first, n, log, own, beats);
    LeadsThere(cfg, settings, first, n, log, own, p, |beats|);
    forall rounds: nat, end | Gathered(cfg, settings, first, n, start, rounds, end) && end.own == {}
      ensures so <= end.log
    {
      assert Rounds(cfg, settings, first, n, start, rounds) == end;
      NobodyRuns(first, n);
      if rounds < |beats| {
        FixedPoint(Loop(cfg, settings, first, n), start, rounds, |beats|);
      } else {
        RoundsAdd(cfg, settings, first, n, start, |beats|, rounds);
      }
    }
  }

  lemma {:induction false} NobodyRuns(first: Hid, n: nat)
    ensures RunningOf({}, first, n) == []
  {
    if n > 0 {
      NobodyRuns(first, n - 1);
    }
  }

  lemma LeadsThere(cfg: Cfg, settings: Config.Settings, first: Hid, n: nat, log: seq<Action>, own: set<Hid>,
                   p: Board, k: nat)
    requires Gatherable(cfg, settings, first, n, Board(log, own, [], []), p, k)
    ensures Rounds(cfg, settings, first, n, Board(log, own, p.turns, p.picks), k).log == p.log
  {
    var start := Board(log, own, [], []);
    assert Given(start, p, [], []) == Board(log, own, p.turns, p.picks);
    assert Iterate(Loop(cfg, settings, first, n), Given(start, p, [], []), k) == Board(p.log, p.own, [], []);
  }

  // ----- and none matters -----

  /** During the awaits there are only steps of handlers and waits. */
  predicate Internal(turns: seq<Turn>) {
    forall i :: 0 <= i < |turns| ==> BatchActions(turns[i].others)
  }

  lemma AddedIsInternal(cfg: Cfg, settings: Config.Settings, h: Hid, hd: Handler, own: set<Hid>, turn: Turn)
    requires BatchActions(turn.others)
    ensures BatchActions(Added(cfg, settings, h, hd, own, turn))
  {
    OutsideOnlyIs(turn.others, own);
    var added := Added(cfg, settings, h, hd, own, turn);
    forall i | 0 <= i < |added| ensures BatchAction(added[i]) {
      assert added[i] in added;
    }
  }

  ghost predicate Schedule(from: seq<Action>, b: Board) {
    from <= b.log && BatchActions(b.log[|from|..]) && Internal(b.turns)
  }

  lemma ResumedIsInternal(cfg: Cfg, settings: Config.Settings, h: Hid, from: seq<Action>, b: Board)
    requires Schedule(from, b)
    ensures Schedule(from, ResumedBoard(cfg, settings, h, b))
  {
    var s := Run(cfg, Init, b.log);
    if h in s.handlers {
      var turn := NextTurn(b.turns);
      var added := Added(cfg, settings, h, s.handlers[h], b.own, turn);
      ResumedLogAdds(cfg, settings, h, s.handlers[h], b.own, turn, b.log);
      AddedIsInternal(cfg, settings, h, s.handlers[h], b.own, turn);
      LaterSince(from, b.log, added);
    }
  }

  lemma {:induction false} GatheredIsASchedule(cfg: Cfg, settings: Config.Settings, first: Hid, n: nat, b: Board,
                                               k: nat)
    requires Internal(b.turns)
    ensures Schedule(b.log, Rounds(cfg, settings, first, n, b, k))
  {
    if k == 0 {
      assert b.log[|b.log|..] == [];
    } else {
      var mid := Rounds(cfg, settings, first, n, b, k - 1);
      GatheredIsASchedule(cfg, settings, first, n, b, k - 1);
      var running := RunningOf(mid.own, first, n);
      if running != [] {
        ResumedIsInternal(cfg, settings, first + running[Choice(mid.picks, |running|)], b.log,
                          mid.(picks := LaterPicks(mid.picks)));
      }
    }
  }

  /** What the batch and the rest of the system did from `b` to `end`. */
  function Since(b: Board, end: Board): seq<Action> {
    if b.log <= end.log then end.log[|b.log|..] else []
  }

  lemma SinceIsASchedule(cfg: Cfg, settings: Config.Settings, first: Hid, n: nat, b: Board, rounds: nat, end: Board)
    requires Gathered(cfg, settings, first, n, b, rounds, end) && Internal(b.turns)
    ensures BatchActions(Since(b, end))
    ensures Run(cfg, Init, end.log) == Run(cfg, Run(cfg, Init, b.log), Since(b, end))
  {
    GatheredIsASchedule(cfg, settings, first, n, b, rounds);
    assert Rounds(cfg, settings, first, n, b, rounds) == end;
    assert b.log + Since(b, end) == end.log;
    Reclaim.RunConcat(cfg, Init, b.log, Since(b, end));
  }

  /**
    Whatever the loop picks, each id ends as if its own handlers had run by themselves
    over the same clock.
   */
  lemma {:induction false} GatheredAsIfAlone(cfg: Cfg, settings: Config.Settings, first: Hid, n: nat, b: Board,
                                             rounds: nat, end: Board, hs: set<Hid>, m: Mid)
    requires Gathered(cfg, settings, first, n, b, rounds, end) && Internal(b.turns)
    requires var s := Run(cfg, Init, b.log); Alike(s, s, hs, m)
    ensures var s := Run(cfg, Init, b.log);
      ViewOf(Run(cfg, Init, end.log), s.store.lastId, m)
      == ViewOf(Run(cfg, s, Alone(Since(b, end), hs)), s.store.lastId, m)
  {
    SinceIsASchedule(cfg, settings, first, n, b, rounds, end);
    Reachable(cfg, b.log);
    AsIfAlone(cfg, Run(cfg, Init, b.log), Since(b, end), hs, m);
  }

  /**
    And where the id's key does not run out meanwhile, as if the handlers had run
    one by one, in whatever order `hs`.
   */
  lemma {:induction false} GatheredAsOneByOne(cfg: Cfg, settings: Config.Settings, first: Hid, n: nat, b: Board,
                                              rounds: nat, end: Board, hs: seq<Hid>, h: Hid)
    requires Gathered(cfg, settings, first, n, b, rounds, end) && Internal(b.turns)
    requires Distinct(hs) && h in hs && h in Run(cfg, Init, b.log).handlers
    requires var s := Run(cfg, Init, b.log);
      var m := s.handlers[h].event.mid;
      WorkOn(s, {h}, m) && Lapse !in MarksOf(cfg, s, Since(b, end), {h}, m)
    ensures var s := Run(cfg, Init, b.log);
      var m := s.handlers[h].event.mid;
      ViewOf(Run(cfg, Init, end.log), s.store.lastId, m)
      == ViewOf(Run(cfg, s, OneByOne(Since(b, end), hs)), s.store.lastId, m)
  {
    SinceIsASchedule(cfg, settings, first, n, b, rounds, end);
    Reachable(cfg, b.log);
    ConcurrentEqualsOneByOne(cfg, Run(cfg, Init, b.log), Since(b, end), hs, h);
  }
}
