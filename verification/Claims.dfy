/**
  The delivery claim (app/queue.py:160-211). Its answers are sound whatever
  happens between SET NX and GET. As long as holders let go before their claim
  lapses, it is a lock, although complete_delivery and abandon_delivery write
  the key without looking at it.
 */
module Claims {
  import opened RedisStore
  import opened Protocol
  import opened Invariants

  // ----- answers, with no premise on timing -----

  /** The history is true: a confirmed id has had a dispatch that returned True. */
  lemma {:induction false} ConfirmedWasAnswered(cfg: Cfg, actions: seq<Action>, m: Mid)
    requires Run(cfg, Init, actions).hist.confirmed[m] > 0
    ensures exists k :: 0 <= k < |actions| && ConfirmedBy(cfg, actions, k, m)
  {
    var last := |actions| - 1;
    var before, a := actions[..last], actions[last];
    var s := Run(cfg, Init, before);
    if s.hist.confirmed[m] > 0 {
      ConfirmedWasAnswered(cfg, before, m);
      var k :| 0 <= k < |before| && ConfirmedBy(cfg, before, k, m);
      assert before[..k] == actions[..k];
      assert ConfirmedBy(cfg, actions, k, m);
    } else {
      OnlyAnswersConfirm(cfg, s, a, m);
      assert ConfirmedBy(cfg, actions, last, m);
    }
  }

  /** Action `k` is dispatch returning True to a handler of `m`. */
  ghost predicate ConfirmedBy(cfg: Cfg, actions: seq<Action>, k: nat, m: Mid)
    requires k < |actions|
  {
    var s := Run(cfg, Init, actions[..k]);
    var a := actions[k];
    a.Answer? && a.ok && Enabled(cfg, s, a) && s.handlers[a.h].event.mid == m
  }

  lemma OnlyAnswersConfirm(cfg: Cfg, s: State, a: Action, m: Mid)
    requires s.hist.confirmed[m] == 0 && Step(cfg, s, a).hist.confirmed[m] > 0
    ensures a.Answer? && a.ok && Enabled(cfg, s, a) && s.handlers[a.h].event.mid == m
  {
  }

  /** The step is the SET NX of handler `h`, which finds the key of `m` missing and writes it. */
  ghost predicate Writes(cfg: Cfg, s: State, a: Action, h: Hid, m: Mid) {
    && a == Go(h) && Enabled(cfg, s, a)
    && s.handlers[h].pc.SetNx? && s.handlers[h].event.mid == m && !s.store.Live(m)
    && Step(cfg, s, a).store.claims == s.store.claims[m := Claim(InFlight, s.store.now + cfg.claimTtl)]
  }

  ghost predicate HoldsFor(s: State, h: Hid, m: Mid) {
    h in s.handlers && s.handlers[h].Holder() && s.handlers[h].event.mid == m
  }

  lemma BecomesHolder(cfg: Cfg, s: State, a: Action, h: Hid, m: Mid)
    requires Inv(cfg, s) && HoldsFor(Step(cfg, s, a), h, m)
    ensures HoldsFor(s, h, m) || Writes(cfg, s, a, h, m)
  {
    if Enabled(cfg, s, a) {
      if a.Go? {
        OwnOutline(cfg, s, a.h);
      } else {
        OthersOutline(cfg, s, a);
        assert Lineage(s, a, Step(cfg, s, a), h);
      }
    }
  }

  ghost predicate WroteAt(cfg: Cfg, actions: seq<Action>, k: nat, h: Hid, m: Mid)
    requires k < |actions|
  {
    Writes(cfg, Run(cfg, Init, actions[..k]), actions[k], h, m)
  }

  /**
    WON only if this call wrote the key: whoever is past begin_delivery and has not
    given the claim up did, at some earlier action of the run, find the key missing
    and write it.
   */
  lemma {:induction false} HoldersWroteTheKey(cfg: Cfg, actions: seq<Action>, h: Hid, m: Mid)
    requires HoldsFor(Run(cfg, Init, actions), h, m)
    ensures exists k :: 0 <= k < |actions| && WroteAt(cfg, actions, k, h, m)
  {
    var last := |actions| - 1;
    var before := actions[..last];
    Reachable(cfg, before);
    BecomesHolder(cfg, Run(cfg, Init, before), actions[last], h, m);
    if HoldsFor(Run(cfg, Init, before), h, m) {
      HoldersWroteTheKey(cfg, before, h, m);
      var k :| 0 <= k < |before| && WroteAt(cfg, before, k, h, m);
      assert before[..k] == actions[..k];
      assert WroteAt(cfg, actions, k, h, m);
    } else {
      assert WroteAt(cfg, actions, last, h, m);
    }
  }

  /**
    GET, in any reachable state and so after any interference since SET NX: the
    answer is already_delivered if and only if a completion marker is alive, only if
    some dispatch returned True for the id, and neither answer changes a key or an
    entry.
   */
  lemma {:induction false} LaterAnswersAreSound(cfg: Cfg, actions: seq<Action>, h: Hid)
    requires var s := Run(cfg, Init, actions); h in s.handlers && s.handlers[h].pc.GetKey?
    ensures var s := Run(cfg, Init, actions);
      var m, s' := s.handlers[h].event.mid, GoStep(cfg, s, h);
      && s'.store == s.store && s'.hist == s.hist
      && (h in s'.handlers <==>
            m in s.store.claims && s.store.now < s.store.claims[m].expiry && s.store.claims[m].value == Done)
      && (h in s'.handlers ==> s'.handlers[h].pc == XAck(AlreadySent))
      && (h in s'.handlers ==> exists k :: 0 <= k < |actions| && ConfirmedBy(cfg, actions, k, m))
  {
    Reachable(cfg, actions);
    var s := Run(cfg, Init, actions);
    if h in GoStep(cfg, s, h).handlers {
      ConfirmedWasAnswered(cfg, actions, s.handlers[h].event.mid);
    }
  }

  // ----- the lock, under claim timing -----

  /** Each holder's key is the one it wrote; a fresh completion marker is untouched. */
  ghost predicate LockOk(cfg: Cfg, s: State) {
    && (forall h :: h in s.handlers && s.handlers[h].Holder() ==> Owns(cfg, s, h))
    && (forall m :: m in s.hist.doneAt && s.store.now < s.hist.doneAt[m] + cfg.deliveredTtl ==>
          m in s.store.claims && s.store.claims[m] == Claim(Done, s.hist.doneAt[m] + cfg.deliveredTtl))
  }

  ghost predicate Owns(cfg: Cfg, s: State, h: Hid)
    requires h in s.handlers
  {
    var hd := s.handlers[h];
    var m := hd.event.mid;
    && m in s.store.claims && s.store.claims[m] == Claim(InFlight, hd.wonAt + cfg.claimTtl)
    && m in s.hist.claimedBy && s.hist.claimedBy[m] == h
  }

  lemma GoKeepsHolders(cfg: Cfg, s: State, h: Hid, s': State, k: Hid)
    requires LockOk(cfg, s) && ClaimTimely(cfg, s) && h in s.handlers && OwnStep(cfg, s, h, s')
    requires k in s'.handlers && s'.handlers[k].Holder()
    ensures Owns(cfg, s', k)
  {
    var hd := s.handlers[h];
    if k == h {
      assert hd.Holder() ==> Owns(cfg, s, h);
    } else {
      assert Owns(cfg, s, k);
      if s.handlers[k].event.mid == hd.event.mid {
        assert s.store.Live(hd.event.mid);
        assert !hd.Holder();
      }
    }
  }

  lemma GoKeepsMarkersFresh(cfg: Cfg, s: State, h: Hid, s': State, m: Mid)
    requires LockOk(cfg, s) && h in s.handlers && OwnStep(cfg, s, h, s')
    requires m in s'.hist.doneAt && s'.store.now < s'.hist.doneAt[m] + cfg.deliveredTtl
    ensures m in s'.store.claims && s'.store.claims[m] == Claim(Done, s'.hist.doneAt[m] + cfg.deliveredTtl)
  {
    if s.handlers[h].Holder() {
      assert Owns(cfg, s, h);
    }
  }

  lemma OthersKeepLock(cfg: Cfg, s: State, a: Action, s': State)
    requires LockOk(cfg, s) && OtherStep(cfg, s, a, s')
    ensures LockOk(cfg, s')
  {
    forall k | k in s'.handlers && s'.handlers[k].Holder() ensures Owns(cfg, s', k) {
      assert Lineage(s, a, s', k);
      assert Owns(cfg, s, k);
    }
  }

  lemma {:induction false} LockHolds(cfg: Cfg, actions: seq<Action>)
    requires ClaimTimelyRun(cfg, actions)
    ensures LockOk(cfg, Run(cfg, Init, actions))
  {
    if actions == [] { return; }
    var before, a := actions[..|actions| - 1], actions[|actions| - 1];
    var s := Run(cfg, Init, before);
    LockHolds(cfg, before);
    Reachable(cfg, before);
    StepKeepsLock(cfg, s, a);
  }

  lemma {:induction false} StepKeepsLock(cfg: Cfg, s: State, a: Action)
    requires LockOk(cfg, s) && ClaimTimely(cfg, s) && s.nextHid !in s.handlers
    ensures LockOk(cfg, Step(cfg, s, a))
  {
    if !Enabled(cfg, s, a) { return; }
    if a.Go? {
      var s' := GoStep(cfg, s, a.h);
      OwnOutline(cfg, s, a.h);
      forall k | k in s'.handlers && s'.handlers[k].Holder() ensures Owns(cfg, s', k) {
        GoKeepsHolders(cfg, s, a.h, s', k);
      }
      forall m | m in s'.hist.doneAt && s'.store.now < s'.hist.doneAt[m] + cfg.deliveredTtl
        ensures m in s'.store.claims && s'.store.claims[m] == Claim(Done, s'.hist.doneAt[m] + cfg.deliveredTtl)
      {
        GoKeepsMarkersFresh(cfg, s, a.h, s', m);
      }
    } else {
      OthersOutline(cfg, s, a);
      OthersKeepLock(cfg, s, a, Step(cfg, s, a));
    }
  }

  predicate Holding(s: State, h: Hid) {
    h in s.handlers && s.handlers[h].Holder()
  }

  /**
    Mutual exclusion. With claim timing, at most one live handler per message id
    is between winning its claim and giving it up, through any deaths and lapses.
   */
  lemma {:induction false} MutualExclusion(cfg: Cfg, actions: seq<Action>)
    requires ClaimTimelyRun(cfg, actions)
    ensures var s := Run(cfg, Init, actions);
      forall h, k :: Holding(s, h) && Holding(s, k) && s.handlers[h].event.mid == s.handlers[k].event.mid ==> h == k
  {
    LockHolds(cfg, actions);
    var s := Run(cfg, Init, actions);
    forall h, k | Holding(s, h) && Holding(s, k) && s.handlers[h].event.mid == s.handlers[k].event.mid
      ensures h == k
    {
      assert Owns(cfg, s, h) && Owns(cfg, s, k);
    }
  }

  lemma KeyChangesHands(cfg: Cfg, s: State, a: Action, m: Mid)
    requires LockOk(cfg, s) && s.nextHid !in s.handlers && s.store.Live(m)
    requires var s' := Step(cfg, s, a); !(m in s'.store.claims && s'.store.claims[m] == s.store.claims[m])
    ensures a.Go? && a.h in s.handlers && s.handlers[a.h].Holder()
    ensures s.handlers[a.h].event.mid == m && Owns(cfg, s, a.h)
  {
    if Enabled(cfg, s, a) {
      if a.Go? {
        OwnOutline(cfg, s, a.h);
      } else {
        OthersOutline(cfg, s, a);
      }
    }
  }

  /**
    With claim timing, the only step that changes or removes a key still alive is
    one of the handler that wrote it, while it holds it; in particular the blind
    SET and DEL never hit another handler's claim or a completion marker.
   */
  lemma {:induction false} OnlyTheOwnerOverwrites(cfg: Cfg, actions: seq<Action>, a: Action, m: Mid)
    requires ClaimTimelyRun(cfg, actions)
    requires var s := Run(cfg, Init, actions);
      var s' := Step(cfg, s, a);
      s.store.Live(m) && !(m in s'.store.claims && s'.store.claims[m] == s.store.claims[m])
    ensures var s := Run(cfg, Init, actions);
      && a.Go? && a.h in s.handlers
      && s.handlers[a.h].Holder() && s.handlers[a.h].event.mid == m
      && s.store.claims[m].value.InFlight?
      && m in s.hist.claimedBy && s.hist.claimedBy[m] == a.h
  {
    LockHolds(cfg, actions);
    Reachable(cfg, actions);
    KeyChangesHands(cfg, Run(cfg, Init, actions), a, m);
  }

  /**
    No resend after confirmation. With claim timing, a handler about to enter
    dispatch for an id that complete_delivery has run for finds the marker's
    whole lifetime gone by, whatever copies are pending or reclaimed.
   */
  lemma {:induction false} NoResendAfterConfirmation(cfg: Cfg, actions: seq<Action>, h: Hid)
    requires ClaimTimelyRun(cfg, actions)
    requires var s := Run(cfg, Init, actions); h in s.handlers && (s.handlers[h].pc.Post? || s.handlers[h].pc.Posting?)
    ensures var s := Run(cfg, Init, actions);
      var m := s.handlers[h].event.mid;
      m in s.hist.doneAt ==> s.store.now >= s.hist.doneAt[m] + cfg.deliveredTtl
  {
    LockHolds(cfg, actions);
    assert Owns(cfg, Run(cfg, Init, actions), h);
  }
}
