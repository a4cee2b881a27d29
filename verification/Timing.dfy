/**
  What settings that pass validate() buy (app/config.py:81-90, 151-162): if a
  POST lasts at most DOWNSTREAM_TIMEOUT_SECONDS, a sleep no longer than it was
  asked to, and everything else a handler does fits in the slack, then both
  timing premises hold in every state of every run.
 */
module Timing {
  import opened RedisStore
  import opened Protocol
  import opened Config

  /** No handler has been slower than the settings and the overhead allow. */
  ghost predicate Prompt(settings: Settings, overhead: real, s: State) {
    forall h :: h in s.handlers ==> PromptHandler(settings, overhead, s.handlers[h])
  }

  predicate PromptHandler(settings: Settings, overhead: real, hd: Handler) {
    && hd.posting <= settings.downstreamTimeoutSeconds
    && hd.sleeping <= settings.SleepSeconds(hd.event.retry)
    && hd.other <= overhead
  }

  ghost predicate PromptRun(settings: Settings, overhead: real, actions: seq<Action>) {
    && Prompt(settings, overhead, Run(CfgOf(settings), Init, actions))
    && (actions == [] || PromptRun(settings, overhead, actions[..|actions| - 1]))
  }

  /** A handler's time is spent posting, sleeping or on everything else. */
  ghost predicate Clocked(s: State) {
    forall h :: h in s.handlers ==> ClockedHandler(s.store.now, s.handlers[h])
  }

  predicate ClockedHandler(now: real, hd: Handler) {
    && now == hd.startAt + hd.posting + hd.sleeping + hd.other
    && hd.startAt <= hd.wonAt
    && hd.posting >= 0.0 && hd.sleeping >= 0.0 && hd.other >= 0.0
  }

  lemma StepKeepsClocks(cfg: Cfg, s: State, a: Action)
    requires Clocked(s)
    ensures Clocked(Step(cfg, s, a))
  {
    if !Enabled(cfg, s, a) { return; }
    match a
    case Tick(d) => TickKeepsClocks(s, d);
    case Go(h) => GoKeepsClocks(cfg, s, h);
    case _ =>
  }

  lemma GoKeepsClocks(cfg: Cfg, s: State, h: Hid)
    requires Clocked(s) && h in s.handlers
    ensures Clocked(GoStep(cfg, s, h))
  {
    OwnOutline(cfg, s, h);
    assert ClockedHandler(s.store.now, s.handlers[h]);
  }

  lemma TickKeepsClocks(s: State, d: real)
    requires Clocked(s) && d >= 0.0
    ensures Clocked(TickStep(s, d))
  {
    forall h | h in TickStep(s, d).handlers ensures ClockedHandler(s.store.now + d, s.handlers[h].Elapse(d)) {
      assert ClockedHandler(s.store.now, s.handlers[h]);
    }
  }

  lemma {:induction false} ClocksHold(cfg: Cfg, actions: seq<Action>)
    ensures Clocked(Run(cfg, Init, actions))
  {
    if actions != [] {
      ClocksHold(cfg, actions[..|actions| - 1]);
      StepKeepsClocks(cfg, Run(cfg, Init, actions[..|actions| - 1]), actions[|actions| - 1]);
    }
  }

  // ----- a claim the server refuses -----

  /** A handler that has not got past its first command. */
  predicate NotBegun(hd: Handler) {
    hd.pc.SetNx? && hd.posting == 0.0 && hd.sleeping == 0.0
  }

  ghost predicate NobodyBegins(s: State) {
    (forall h :: h in s.handlers ==> NotBegun(s.handlers[h])) && s.hist.posts == multiset{}
  }

  lemma StepBeginsNothing(cfg: Cfg, s: State, a: Action)
    requires cfg.claimTtl <= 0.0 && NobodyBegins(s)
    ensures NobodyBegins(Step(cfg, s, a))
  {
    if a.Tick? && Enabled(cfg, s, a) {
      forall h | h in TickStep(s, a.d).handlers ensures NotBegun(TickStep(s, a.d).handlers[h]) {
        assert NotBegun(s.handlers[h]);
      }
    }
  }

  /** Where timeout and cap add up to -5 seconds or less, every claim is refused and nothing is ever dispatched. */
  lemma {:induction false} RefusedClaimsStopDelivery(cfg: Cfg, actions: seq<Action>)
    requires cfg.claimTtl <= 0.0
    ensures NobodyBegins(Run(cfg, Init, actions))
  {
    if actions != [] {
      RefusedClaimsStopDelivery(cfg, actions[..|actions| - 1]);
      StepBeginsNothing(cfg, Run(cfg, Init, actions[..|actions| - 1]), actions[|actions| - 1]);
    }
  }

  // ----- the windows -----

  /** The longest a prompt handler takes: if claims are refused it never gets to post. */
  function Longest(settings: Settings, overhead: real): real {
    if settings.ClaimTtlSeconds() <= 0 then overhead
    else if settings.backoffMaxSeconds >= 0.0 then overhead + settings.AttemptCeiling()
    else overhead + settings.downstreamTimeoutSeconds
  }

  /** Both windows are longer than that. A test on the settings alone. */
  predicate Outlast(settings: Settings, overhead: real) {
    && (settings.ClaimTtlSeconds() > 0 ==> Longest(settings, overhead) < settings.ClaimTtlSeconds() as real)
    && Longest(settings, overhead) < settings.MinIdleSeconds()
  }

  /** What is left of both windows once the attempt ceiling is taken out. */
  predicate FitsTheSlack(settings: Settings, overhead: real) {
    && overhead <= 4.0
    && overhead < settings.MinIdleSeconds() && overhead < settings.MinIdleSeconds() - settings.AttemptCeiling()
  }

  /**
    For settings that pass the startup check with a cap of zero or more, both
    windows outlast the longest attempt with any overhead that fits the slack, and
    there is some slack.
   */
  lemma CheckedSettingsOutlast(settings: Settings, overhead: real)
    requires settings.IdleExceedsAttempt() && settings.backoffMaxSeconds >= 0.0
    requires FitsTheSlack(settings, overhead)
    ensures Outlast(settings, overhead)
    ensures settings.downstreamTimeoutSeconds >= 0.0 ==> FitsTheSlack(settings, 0.0)
  {
    ClaimTtlSlack(settings);
  }

  /** A prompt handler finishes before its claim lapses, if it can get one, and before its entry is reclaimable. */
  lemma WindowsOutlastTheAttempt(settings: Settings, overhead: real, now: real, hd: Handler)
    requires Outlast(settings, overhead)
    requires ClockedHandler(now, hd) && PromptHandler(settings, overhead, hd)
    requires settings.ClaimTtlSeconds() <= 0 ==> NotBegun(hd)
    ensures hd.Holder() ==> now < hd.wonAt + CfgOf(settings).claimTtl
    ensures now < hd.startAt + CfgOf(settings).minIdle
  {
    var cap := settings.backoffMaxSeconds;
    assert settings.SleepSeconds(hd.event.retry) <= if cap >= 0.0 then cap else 0.0;
  }

  /**
    Timing chain. Settings whose windows outlast the longest attempt, as those that
    pass the startup check do for a cap of zero or more, give both timing premises
    in every state of every prompt run.
   */
  lemma {:induction false} TimingChain(settings: Settings, overhead: real, actions: seq<Action>)
    requires Outlast(settings, overhead)
    requires PromptRun(settings, overhead, actions)
    ensures ClaimTimelyRun(CfgOf(settings), actions) && IdleTimelyRun(CfgOf(settings), actions)
  {
    var cfg := CfgOf(settings);
    var s := Run(cfg, Init, actions);
    ClocksHold(cfg, actions);
    if cfg.claimTtl <= 0.0 {
      RefusedClaimsStopDelivery(cfg, actions);
    }
    forall h | h in s.handlers
      ensures s.handlers[h].Holder() ==> s.store.now < s.handlers[h].wonAt + cfg.claimTtl
      ensures s.store.now < s.handlers[h].startAt + cfg.minIdle
    {
      WindowsOutlastTheAttempt(settings, overhead, s.store.now, s.handlers[h]);
    }
    if actions != [] {
      TimingChain(settings, overhead, actions[..|actions| - 1]);
    }
  }

  // ----- when the check is not enough -----

  lemma OneMorePrompt(settings: Settings, overhead: real, actions: seq<Action>, a: Action)
    requires PromptRun(settings, overhead, actions)
    requires Prompt(settings, overhead, Step(CfgOf(settings), Run(CfgOf(settings), Init, actions), a))
    ensures PromptRun(settings, overhead, actions + [a])
    ensures Run(CfgOf(settings), Init, actions + [a]) == Step(CfgOf(settings), Run(CfgOf(settings), Init, actions), a)
  {
    assert (actions + [a])[..|actions|] == actions;
  }

  /** One message, published and delivered at once. */
  const Begun := [Publish("m", "")] + [Deliver(1, "w")]

  /** The only handler, `other` seconds after it began, at `pc`. */
  function Lone(pc: Pc, posting: real, other: real): Handler {
    Handler(1, Event("m", 0, ""), pc, 0.0, 0.0, posting, 0.0, other)
  }

  /** The handler is the only one, and the clock has gone as far as it has. */
  predicate OnlyHandler(s: State, hd: Handler) {
    s.handlers == map[0 := hd] && s.store.now == hd.posting + hd.other
  }

  lemma BegunRun(settings: Settings, overhead: real)
    requires settings.downstreamTimeoutSeconds >= 0.0 && overhead >= 0.0
    ensures PromptRun(settings, overhead, Begun)
    ensures var s := Run(CfgOf(settings), Init, Begun); OnlyHandler(s, Lone(SetNx, 0.0, 0.0)) && !s.store.Live("m")
  {
    assert PromptRun(settings, overhead, []);
    OneMorePrompt(settings, overhead, [], Publish("m", ""));
    assert [] + [Publish("m", "")] == [Publish("m", "")];
    var s := Run(CfgOf(settings), Init, [Publish("m", "")]);
    assert s.store.NextUndelivered(1);
    OneMorePrompt(settings, overhead, [Publish("m", "")], Deliver(1, "w"));
  }

  /** A wait that stays prompt. */
  lemma LoneWait(settings: Settings, overhead: real, actions: seq<Action>, d: real, before: Handler, after: Handler)
    requires PromptRun(settings, overhead, actions) && d >= 0.0
    requires OnlyHandler(Run(CfgOf(settings), Init, actions), before)
    requires !before.pc.Sleep? && after == before.Elapse(d) && PromptHandler(settings, overhead, after)
    ensures PromptRun(settings, overhead, actions + [Tick(d)])
    ensures OnlyHandler(Run(CfgOf(settings), Init, actions + [Tick(d)]), after)
  {
    var s := Run(CfgOf(settings), Init, actions);
    assert TickStep(s, d).handlers == map[0 := after];
    OneMorePrompt(settings, overhead, actions, Tick(d));
  }

  /** A command: SET NX that wins, or the start of dispatch. */
  lemma LoneCommand(settings: Settings, overhead: real, actions: seq<Action>, before: Handler, after: Handler)
    requires PromptRun(settings, overhead, actions) && PromptHandler(settings, overhead, before)
    requires OnlyHandler(Run(CfgOf(settings), Init, actions), before) && settings.ClaimTtlSeconds() > 0
    requires (before.pc.SetNx? && after == before.(pc := Post, wonAt := before.posting + before.other)
              && !Run(CfgOf(settings), Init, actions).store.Live(before.event.mid))
             || (before.pc.Post? && after == before.(pc := Posting))
    ensures PromptRun(settings, overhead, actions + [Go(0)])
    ensures OnlyHandler(Run(CfgOf(settings), Init, actions + [Go(0)]), after)
  {
    var s := Run(CfgOf(settings), Init, actions);
    assert GoStep(CfgOf(settings), s, 0).handlers == map[0 := after];
    OneMorePrompt(settings, overhead, actions, Go(0));
  }

  /** Win, spend the overhead, dispatch, and wait for as long as a POST may last. */
  function LongPost(settings: Settings, overhead: real): seq<Action> {
    Begun + [Go(0)] + [Tick(overhead)] + [Go(0)] + [Tick(settings.downstreamTimeoutSeconds)]
  }

  lemma LongPostIsPrompt(settings: Settings, overhead: real)
    requires settings.downstreamTimeoutSeconds >= 0.0 && overhead >= 0.0 && settings.ClaimTtlSeconds() > 0
    ensures PromptRun(settings, overhead, LongPost(settings, overhead))
    ensures OnlyHandler(Run(CfgOf(settings), Init, LongPost(settings, overhead)),
                        Lone(Posting, settings.downstreamTimeoutSeconds, overhead))
  {
    var timeout := settings.downstreamTimeoutSeconds;
    BegunRun(settings, overhead);
    LoneCommand(settings, overhead, Begun, Lone(SetNx, 0.0, 0.0), Lone(Post, 0.0, 0.0));
    LoneWait(settings, overhead, Begun + [Go(0)], overhead, Lone(Post, 0.0, 0.0), Lone(Post, 0.0, overhead));
    LoneCommand(settings, overhead, Begun + [Go(0)] + [Tick(overhead)],
                Lone(Post, 0.0, overhead), Lone(Posting, 0.0, overhead));
    LoneWait(settings, overhead, Begun + [Go(0)] + [Tick(overhead)] + [Go(0)], timeout,
             Lone(Posting, 0.0, overhead), Lone(Posting, timeout, overhead));
  }

  ghost predicate AlwaysTimely(settings: Settings, overhead: real) {
    forall actions :: PromptRun(settings, overhead, actions) ==>
      ClaimTimelyRun(CfgOf(settings), actions) && IdleTimelyRun(CfgOf(settings), actions)
  }

  /**
    With a negative cap, which the startup check lets through, no sleep lasts and
    the condition is exact: every prompt run keeps both timing premises if and only
    if both windows outlast a POST and the overhead (or, where claims are refused,
    the reclaim delay outlasts the overhead).
   */
  lemma {:induction false} NegativeCapExactly(settings: Settings, overhead: real)
    requires settings.backoffMaxSeconds < 0.0 && settings.downstreamTimeoutSeconds >= 0.0 && overhead >= 0.0
    ensures AlwaysTimely(settings, overhead) <==> Outlast(settings, overhead)
  {
    if Outlast(settings, overhead) {
      forall actions | PromptRun(settings, overhead, actions)
        ensures ClaimTimelyRun(CfgOf(settings), actions) && IdleTimelyRun(CfgOf(settings), actions)
      {
        TimingChain(settings, overhead, actions);
      }
    } else if settings.ClaimTtlSeconds() > 0 {
      LongPostIsPrompt(settings, overhead);
      LatePostIsUntimely(settings, overhead);
    } else {
      BegunRun(settings, overhead);
      LoneWait(settings, overhead, Begun, overhead, Lone(SetNx, 0.0, 0.0), Lone(SetNx, 0.0, overhead));
      assert 0 in Run(CfgOf(settings), Init, Begun + [Tick(overhead)]).handlers;
      assert !IdleTimelyRun(CfgOf(settings), Begun + [Tick(overhead)]);
    }
  }

  lemma LatePostIsUntimely(settings: Settings, overhead: real)
    requires var s := Run(CfgOf(settings), Init, LongPost(settings, overhead));
      OnlyHandler(s, Lone(Posting, settings.downstreamTimeoutSeconds, overhead))
    ensures var longest := settings.downstreamTimeoutSeconds + overhead;
      && (longest >= settings.ClaimTtlSeconds() as real ==>
            !ClaimTimelyRun(CfgOf(settings), LongPost(settings, overhead)))
      && (longest >= settings.MinIdleSeconds() ==> !IdleTimelyRun(CfgOf(settings), LongPost(settings, overhead)))
  {
    assert 0 in Run(CfgOf(settings), Init, LongPost(settings, overhead)).handlers;
  }

  const NegativeCap := Settings(false, false, true, 5, 2.0, -5.0, 10.0, 6000, 86400, 86400, 10)

  /**
    Settings that pass the startup check and can run, and a run in which a worker
    wins the claim and its POST lasts the ten seconds it may: the claim has lapsed
    and the entry is reclaimable before the POST is over.
   */
  lemma {:induction false} NegativeCapDefeatsTheCheck()
    ensures NegativeCap.IdleExceedsAttempt() && NegativeCap.ClaimTtlSeconds() == 10
    ensures var actions := LongPost(NegativeCap, 0.0);
      && PromptRun(NegativeCap, 0.0, actions)
      && !ClaimTimelyRun(CfgOf(NegativeCap), actions) && !IdleTimelyRun(CfgOf(NegativeCap), actions)
  {
    assert NegativeCap.AttemptCeiling() == 5.0;
    assert NegativeCap.ClaimTtlSeconds() == 10;
    LongPostIsPrompt(NegativeCap, 0.0);
    LatePostIsUntimely(NegativeCap, 0.0);
  }
}
