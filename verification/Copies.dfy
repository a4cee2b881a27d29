/**
  Counting the copies of a message, and the dispatches they can still cause,
  under idle timing: what a death costs, and what nothing else ever costs.
 */
module Copies {
  import opened RedisStore
  import opened Protocol
  import opened Invariants
  import opened NoLoss
  import opened Idle

  // ----- sums over entry ids -----

  function Sum(f: nat -> int, n: nat): int {
    if n == 0 then 0 else Sum(f, n - 1) + f(n)
  }

  /** Two families that differ at `e` at most. */
  lemma {:induction false} SumOneChange(f: nat -> int, g: nat -> int, n: nat, e: nat)
    requires forall id :: 1 <= id <= n && id != e ==> f(id) == g(id)
    ensures Sum(g, n) == Sum(f, n) + if 1 <= e <= n then g(e) - f(e) else 0
  {
    if n > 0 {
      SumOneChange(f, g, n - 1, e);
    }
  }

  lemma {:induction false} SumBounds(f: nat -> int, n: nat, e: nat)
    requires forall id :: 1 <= id <= n ==> f(id) >= 0
    ensures Sum(f, n) >= 0
    ensures 1 <= e <= n ==> Sum(f, n) >= f(e)
  {
    if n > 0 {
      SumBounds(f, n - 1, e);
    }
  }

  lemma {:induction false} SumTwo(f: nat -> int, n: nat, d: nat, e: nat)
    requires forall id :: 1 <= id <= n ==> f(id) >= 0
    requires 1 <= d < e <= n
    ensures Sum(f, n) >= f(d) + f(e)
  {
    if e == n {
      SumBounds(f, n - 1, d);
    } else {
      SumTwo(f, n - 1, d, e);
    }
  }

  // ----- the two measures -----

  ghost function CopyWeight(s: State, m: Mid, id: EntryId): int {
    if LiveCopy(s, m, id) then 1 else 0
  }

  /** Dispatches the copy can still lead to if nobody dies on it. */
  ghost function AttemptWeight(cfg: Cfg, s: State, m: Mid, id: EntryId): int {
    if LiveCopy(s, m, id)
    then cfg.RetryLimit() + 1 - s.store.stream[id].event.retry - (if SpentEntry(s, id) then 1 else 0)
    else 0
  }

  ghost function CopyWeights(s: State, m: Mid): nat -> int {
    (id: nat) => CopyWeight(s, m, id)
  }

  ghost function AttemptWeights(cfg: Cfg, s: State, m: Mid): nat -> int {
    (id: nat) => AttemptWeight(cfg, s, m, id)
  }

  /** The number of entries that stand for `m`. */
  ghost function CopyCount(s: State, m: Mid): int {
    Sum(CopyWeights(s, m), s.store.lastId)
  }

  ghost function AttemptsLeft(cfg: Cfg, s: State, m: Mid): int {
    Sum(AttemptWeights(cfg, s, m), s.store.lastId)
  }

  // ----- how a step moves them -----

  /** A step that touches the entry `e` and appends at most one entry. */
  ghost predicate TouchesOne(s: State, s': State, m: Mid, e: EntryId) {
    && s.store.lastId <= s'.store.lastId <= s.store.lastId + 1
    && forall id :: 1 <= id <= s.store.lastId && id != e ==>
         && (LiveCopy(s', m, id) <==> LiveCopy(s, m, id))
         && (SpentEntry(s', id) <==> SpentEntry(s, id))
         && (LiveCopy(s, m, id) ==> s'.store.stream[id] == s.store.stream[id])
  }

  lemma StepTouchesOne(cfg: Cfg, s: State, a: Action, m: Mid)
    requires Inv(cfg, s) && Enabled(cfg, s, a)
    ensures TouchesOne(s, Step(cfg, s, a), m, Touched(s, a))
  {
    var s' := Step(cfg, s, a);
    if a.Go? {
      OwnOutline(cfg, s, a.h);
    } else {
      OthersOutline(cfg, s, a);
    }
    forall id | 1 <= id <= s.store.lastId && id != Touched(s, a)
      ensures LiveCopy(s', m, id) <==> LiveCopy(s, m, id)
      ensures SpentEntry(s', id) <==> SpentEntry(s, id)
      ensures LiveCopy(s, m, id) ==> s'.store.stream[id] == s.store.stream[id]
    {
      if a.Go? {
        GoTouchesOne(cfg, s, a.h, s', m, id);
      } else {
        OthersTouchOne(cfg, s, a, s', m, id);
      }
    }
  }

  /** The change at the touched entry plus the weight of an appended one. */
  function Change(before: int, after: int, n: nat, n': nat, e: nat, added: int): int {
    (if 1 <= e <= n then after - before else 0) + if n' == n then 0 else added
  }

  lemma MeasuresMove(cfg: Cfg, s: State, s': State, m: Mid, e: EntryId)
    requires TouchesOne(s, s', m, e)
    ensures var n, n' := s.store.lastId, s'.store.lastId;
      && CopyCount(s', m) == CopyCount(s, m)
           + Change(CopyWeight(s, m, e), CopyWeight(s', m, e), n, n', e, CopyWeight(s', m, n'))
      && AttemptsLeft(cfg, s', m) == AttemptsLeft(cfg, s, m)
           + Change(AttemptWeight(cfg, s, m, e), AttemptWeight(cfg, s', m, e), n, n', e, AttemptWeight(cfg, s', m, n'))
  {
    SumOneChange(CopyWeights(s, m), CopyWeights(s', m), s.store.lastId, e);
    SumOneChange(AttemptWeights(cfg, s, m), AttemptWeights(cfg, s', m), s.store.lastId, e);
  }

  // ----- what an entry weighs, seen from its handler -----

  function HandlerCopies(hd: Handler, m: Mid): int {
    if !hd.pc.XDel? && !hd.Retiring() && hd.event.mid == m then 1 else 0
  }

  function HandlerAttempts(cfg: Cfg, hd: Handler, m: Mid): int {
    if HandlerCopies(hd, m) == 0 then 0
    else cfg.RetryLimit() + 1 - hd.event.retry - if hd.Spent() && !hd.Failed() then 1 else 0
  }

  lemma WeightWithHandler(cfg: Cfg, s: State, h: Hid, m: Mid)
    requires Inv(cfg, s) && IdleOk(s) && h in s.handlers
    ensures CopyWeight(s, m, s.handlers[h].entry) == HandlerCopies(s.handlers[h], m)
    ensures AttemptWeight(cfg, s, m, s.handlers[h].entry) == HandlerAttempts(cfg, s.handlers[h], m)
  {
    CopyWithHandler(cfg, s, h, m);
  }

  lemma WeightWithoutHandler(cfg: Cfg, s: State, id: EntryId, m: Mid)
    requires NobodyOn(s, id)
    ensures var live := Recoverable(s.store, id) && s.store.stream[id].Json? && s.store.stream[id].event.mid == m;
      && CopyWeight(s, m, id) == (if live then 1 else 0)
      && AttemptWeight(cfg, s, m, id) == if live then cfg.RetryLimit() + 1 - s.store.stream[id].event.retry else 0
  {
    CopyWithoutHandler(s, id, m);
  }

  lemma HandlerAttemptsBounds(cfg: Cfg, sources: set<(Mid, string)>, hd: Handler, m: Mid)
    requires HandlerEventOk(cfg.RetryLimit(), sources, hd)
    ensures 0 <= HandlerAttempts(cfg, hd, m) <= cfg.RetryLimit() + 1
  {
  }

  // ----- conservation -----

  /** Copies and settled entries balance publications and deaths that doubled a copy. */
  ghost predicate Balanced(s: State, m: Mid) {
    CopyCount(s, m) + s.hist.settled[m] == s.hist.published[m] + s.hist.requeueDeaths[m]
  }

  /** Dispatches begun and still to come are paid for by publications and late deaths. */
  ghost predicate WithinBudget(cfg: Cfg, s: State, m: Mid) {
    s.hist.posts[m] + AttemptsLeft(cfg, s, m) <= (cfg.RetryLimit() + 1) * (s.hist.published[m] + s.hist.lateDeaths[m])
  }

  ghost predicate Accounts(cfg: Cfg, s: State, m: Mid) {
    Balanced(s, m) && WithinBudget(cfg, s, m)
  }

  lemma OneMoreRound(cfg: Cfg, n: nat)
    ensures (cfg.RetryLimit() + 1) * (n + 1) == (cfg.RetryLimit() + 1) * n + cfg.RetryLimit() + 1
  {
  }

  /** enqueue_event moves the whole weight of the old entry to the new one. */
  lemma RequeueReplaces(cfg: Cfg, s: State, h: Hid, m: Mid)
    requires Inv(cfg, s) && IdleOk(s) && h in s.handlers && s.handlers[h].pc.Requeue?
    requires Inv(cfg, GoStep(cfg, s, h)) && IdleOk(GoStep(cfg, s, h))
    ensures var hd, s' := s.handlers[h], GoStep(cfg, s, h);
      && s'.store.lastId == s.store.lastId + 1 && 1 <= hd.entry <= s.store.lastId
      && CopyWeight(s', m, hd.entry) == 0 && AttemptWeight(cfg, s', m, hd.entry) == 0
      && CopyWeight(s', m, s'.store.lastId) == HandlerCopies(hd, m)
      && AttemptWeight(cfg, s', m, s'.store.lastId) == HandlerAttempts(cfg, hd, m)
      && s'.hist == s.hist
  {
    var s' := GoStep(cfg, s, h);
    assert HandlerOk(s.store, s.handlers[h]);
    WeightWithHandler(cfg, s', h, m);
    forall k | k in s'.handlers ensures s'.handlers[k].entry != s'.store.lastId {
      assert HandlerOk(s'.store, s'.handlers[k]);
    }
    WeightWithoutHandler(cfg, s', s'.store.lastId, m);
  }

  /** Any other command that leaves the handler alive. */
  lemma CommandMovesWeight(cfg: Cfg, s: State, h: Hid, m: Mid)
    requires h in s.handlers && !s.handlers[h].pc.Requeue? && !s.handlers[h].pc.Posting?
    requires h in GoStep(cfg, s, h).handlers
    requires HandlerEventOk(cfg.RetryLimit(), s.hist.sources, s.handlers[h])
    ensures var hd, s' := s.handlers[h], GoStep(cfg, s, h);
      var hd' := s'.handlers[h];
      && s'.store.lastId == s.store.lastId
      && HandlerCopies(hd', m) + s'.hist.settled[m] == HandlerCopies(hd, m) + s.hist.settled[m]
      && HandlerAttempts(cfg, hd', m) + s'.hist.posts[m] <= HandlerAttempts(cfg, hd, m) + s.hist.posts[m]
      && s'.hist.published == s.hist.published && s'.hist.requeueDeaths == s.hist.requeueDeaths
      && s'.hist.lateDeaths == s.hist.lateDeaths
  {
    HandlerAttemptsBounds(cfg, s.hist.sources, s.handlers[h], m);
  }

  /** in_progress leaves the entry as it was; XDEL ends an entry that no longer counted. */
  lemma EndKeepsWeight(cfg: Cfg, s: State, h: Hid, m: Mid)
    requires Inv(cfg, s) && IdleOk(s) && h in s.handlers && h !in GoStep(cfg, s, h).handlers
    ensures var hd, s' := s.handlers[h], GoStep(cfg, s, h);
      && s'.store.lastId == s.store.lastId && s'.hist == s.hist
      && CopyWeight(s', m, hd.entry) == HandlerCopies(hd, m)
      && AttemptWeight(cfg, s', m, hd.entry) == HandlerAttempts(cfg, hd, m)
  {
    var s' := GoStep(cfg, s, h);
    var hd := s.handlers[h];
    CopyWithHandler(cfg, s, h, m);
    assert HandlerOk(s.store, hd);
    assert NobodyOn(s', hd.entry);
    WeightWithoutHandler(cfg, s', hd.entry, m);
  }

  /** A step that pays for what the touched entry loses, and appends nothing. */
  lemma PaidFor(cfg: Cfg, s: State, s': State, m: Mid, e: EntryId)
    requires TouchesOne(s, s', m, e) && Accounts(cfg, s, m)
    requires s'.store.lastId == s.store.lastId && 1 <= e <= s.store.lastId
    requires s'.hist.published[m] == s.hist.published[m]
    requires s'.hist.requeueDeaths[m] == s.hist.requeueDeaths[m] && s'.hist.lateDeaths[m] == s.hist.lateDeaths[m]
    requires CopyWeight(s', m, e) + s'.hist.settled[m] == CopyWeight(s, m, e) + s.hist.settled[m]
    requires AttemptWeight(cfg, s', m, e) + s'.hist.posts[m] <= AttemptWeight(cfg, s, m, e) + s.hist.posts[m]
    ensures Accounts(cfg, s', m)
  {
    MeasuresMove(cfg, s, s', m, e);
  }

  /** A step that moves the weight of one entry to a new one. */
  lemma Replaced(cfg: Cfg, s: State, s': State, m: Mid, e: EntryId)
    requires TouchesOne(s, s', m, e) && Accounts(cfg, s, m) && s'.hist == s.hist
    requires s'.store.lastId == s.store.lastId + 1 && 1 <= e <= s.store.lastId
    requires CopyWeight(s', m, e) == 0 && CopyWeight(s', m, s'.store.lastId) == CopyWeight(s, m, e)
    requires AttemptWeight(cfg, s', m, e) == 0
    requires AttemptWeight(cfg, s', m, s'.store.lastId) == AttemptWeight(cfg, s, m, e)
    ensures Accounts(cfg, s', m)
  {
    MeasuresMove(cfg, s, s', m, e);
  }

  lemma GoKeepsAccounts(cfg: Cfg, s: State, h: Hid, m: Mid)
    requires Inv(cfg, s) && IdleOk(s) && h in s.handlers && !s.handlers[h].pc.Posting?
    requires Inv(cfg, GoStep(cfg, s, h)) && IdleOk(GoStep(cfg, s, h))
    requires TouchesOne(s, GoStep(cfg, s, h), m, s.handlers[h].entry)
    requires Accounts(cfg, s, m)
    ensures Accounts(cfg, GoStep(cfg, s, h), m)
  {
    if s.handlers[h].pc.Requeue? {
      RequeueKeepsAccounts(cfg, s, h, m);
    } else if h in GoStep(cfg, s, h).handlers {
      CommandKeepsAccounts(cfg, s, h, m);
    } else {
      EndKeepsAccounts(cfg, s, h, m);
    }
  }

  lemma RequeueKeepsAccounts(cfg: Cfg, s: State, h: Hid, m: Mid)
    requires Inv(cfg, s) && IdleOk(s) && h in s.handlers && s.handlers[h].pc.Requeue?
    requires Inv(cfg, GoStep(cfg, s, h)) && IdleOk(GoStep(cfg, s, h))
    requires TouchesOne(s, GoStep(cfg, s, h), m, s.handlers[h].entry)
    requires Accounts(cfg, s, m)
    ensures Accounts(cfg, GoStep(cfg, s, h), m)
  {
    WeightWithHandler(cfg, s, h, m);
    RequeueReplaces(cfg, s, h, m);
    Replaced(cfg, s, GoStep(cfg, s, h), m, s.handlers[h].entry);
  }

  lemma CommandKeepsAccounts(cfg: Cfg, s: State, h: Hid, m: Mid)
    requires Inv(cfg, s) && IdleOk(s) && h in s.handlers && !s.handlers[h].pc.Requeue?
    requires Inv(cfg, GoStep(cfg, s, h)) && IdleOk(GoStep(cfg, s, h))
    requires TouchesOne(s, GoStep(cfg, s, h), m, s.handlers[h].entry)
    requires Accounts(cfg, s, m)
    requires !s.handlers[h].pc.Posting? && h in GoStep(cfg, s, h).handlers
    ensures Accounts(cfg, GoStep(cfg, s, h), m)
  {
    var s' := GoStep(cfg, s, h);
    WeightWithHandler(cfg, s, h, m);
    WeightWithHandler(cfg, s', h, m);
    assert HandlerOk(s.store, s.handlers[h]) && HandlerEventOk(cfg.RetryLimit(), s.hist.sources, s.handlers[h]);
    CommandMovesWeight(cfg, s, h, m);
    PaidFor(cfg, s, s', m, s.handlers[h].entry);
  }

  lemma EndKeepsAccounts(cfg: Cfg, s: State, h: Hid, m: Mid)
    requires Inv(cfg, s) && IdleOk(s) && h in s.handlers && h !in GoStep(cfg, s, h).handlers
    requires Inv(cfg, GoStep(cfg, s, h)) && IdleOk(GoStep(cfg, s, h))
    requires TouchesOne(s, GoStep(cfg, s, h), m, s.handlers[h].entry)
    requires Accounts(cfg, s, m)
    ensures Accounts(cfg, GoStep(cfg, s, h), m)
  {
    WeightWithHandler(cfg, s, h, m);
    EndKeepsWeight(cfg, s, h, m);
    assert HandlerOk(s.store, s.handlers[h]);
    PaidFor(cfg, s, GoStep(cfg, s, h), m, s.handlers[h].entry);
  }

  lemma AppendKeepsAccounts(cfg: Cfg, s: State, a: Action, s': State, m: Mid)
    requires Inv(cfg, s) && Inv(cfg, s') && OtherStep(cfg, s, a, s') && (a.Publish? || a.PublishJunk?)
    requires TouchesOne(s, s', m, 0) && Accounts(cfg, s, m)
    requires s'.hist.published[m] == s.hist.published[m] + if a.Publish? && a.mid == m then 1 else 0
    ensures Accounts(cfg, s', m)
  {
    MeasuresMove(cfg, s, s', m, 0);
    forall k | k in s'.handlers ensures s'.handlers[k].entry != s'.store.lastId {
      assert HandlerOk(s'.store, s'.handlers[k]);
      assert Lineage(s, a, s', k);
      assert HandlerOk(s.store, s.handlers[k]);
    }
    WeightWithoutHandler(cfg, s', s'.store.lastId, m);
    OneMoreRound(cfg, s.hist.published[m] + s.hist.lateDeaths[m]);
  }

  /** Handing a free entry to a new handler changes nothing yet. */
  lemma HandoutKeepsAccounts(cfg: Cfg, s: State, a: Action, s': State, m: Mid)
    requires Inv(cfg, s) && Inv(cfg, s') && OtherStep(cfg, s, a, s') && (a.Deliver? || a.Adopt?)
    requires NobodyOn(s, a.id)
    requires TouchesOne(s, s', m, a.id) && Accounts(cfg, s, m)
    ensures Accounts(cfg, s', m)
  {
    HandoutIsFresh(cfg, s, a, s');
    HandoutKeepsWeight(cfg, s, s', a.id, m);
    PaidFor(cfg, s, s', m, a.id);
  }

  ghost predicate JustBegun(s: State, id: EntryId) {
    forall h :: h in s.handlers && s.handlers[h].entry == id ==> s.handlers[h].pc.SetNx?
  }

  lemma HandoutIsFresh(cfg: Cfg, s: State, a: Action, s': State)
    requires Inv(cfg, s) && OtherStep(cfg, s, a, s') && (a.Deliver? || a.Adopt?) && NobodyOn(s, a.id)
    ensures 1 <= a.id <= s.store.lastId && JustBegun(s', a.id)
    ensures Recoverable(s.store, a.id) && Recoverable(s'.store, a.id)
  {
    forall k | k in s'.handlers && s'.handlers[k].entry == a.id ensures s'.handlers[k].pc.SetNx? {
      assert Lineage(s, a, s', k);
    }
  }

  lemma HandoutKeepsWeight(cfg: Cfg, s: State, s': State, id: EntryId, m: Mid)
    requires NobodyOn(s, id) && JustBegun(s', id) && s'.store.stream == s.store.stream
    requires Recoverable(s.store, id) && Recoverable(s'.store, id)
    ensures CopyWeight(s', m, id) == CopyWeight(s, m, id)
    ensures AttemptWeight(cfg, s', m, id) == AttemptWeight(cfg, s, m, id)
  {
    assert !RetiringEntry(s', id) && !SpentEntry(s', id);
    CopyWithoutHandler(s, id, m);
  }

  lemma AnswerKeepsAccounts(cfg: Cfg, s: State, h: Hid, ok: bool, m: Mid)
    requires Inv(cfg, s) && IdleOk(s) && h in s.handlers && s.handlers[h].pc.Posting?
    requires Inv(cfg, AnswerStep(cfg, s, h, ok)) && IdleOk(AnswerStep(cfg, s, h, ok))
    requires TouchesOne(s, AnswerStep(cfg, s, h, ok), m, s.handlers[h].entry)
    requires Accounts(cfg, s, m)
    ensures Accounts(cfg, AnswerStep(cfg, s, h, ok), m)
  {
    var s' := AnswerStep(cfg, s, h, ok);
    assert s'.handlers[h] == AfterAnswer(cfg, s.handlers[h], ok);
    WeightWithHandler(cfg, s, h, m);
    WeightWithHandler(cfg, s', h, m);
    AnswerKeepsWeight(cfg, s.handlers[h], ok, m);
    assert HandlerOk(s.store, s.handlers[h]);
    PaidFor(cfg, s, s', m, s.handlers[h].entry);
  }

  /** The dispatch was paid for when it began. */
  lemma AnswerKeepsWeight(cfg: Cfg, hd: Handler, ok: bool, m: Mid)
    requires hd.pc.Posting?
    ensures HandlerCopies(AfterAnswer(cfg, hd, ok), m) == HandlerCopies(hd, m)
    ensures HandlerAttempts(cfg, AfterAnswer(cfg, hd, ok), m) == HandlerAttempts(cfg, hd, m)
  {
  }

  /** A death hands back at most one full round, and doubles a copy only after enqueue_event. */
  lemma KillKeepsAccounts(cfg: Cfg, s: State, h: Hid, m: Mid)
    requires Inv(cfg, s) && IdleOk(s) && h in s.handlers
    requires TouchesOne(s, KillStep(s, h), m, s.handlers[h].entry)
    requires Accounts(cfg, s, m)
    ensures Accounts(cfg, KillStep(s, h), m)
  {
    var s' := KillStep(s, h);
    var hd := s.handlers[h];
    MeasuresMove(cfg, s, s', m, hd.entry);
    WeightWithHandler(cfg, s, h, m);
    CopyWithHandler(cfg, s, h, m);
    assert HandlerOk(s.store, hd) && HandlerEventOk(cfg.RetryLimit(), s.hist.sources, hd);
    assert NobodyOn(s', hd.entry);
    WeightWithoutHandler(cfg, s', hd.entry, m);
    OneMoreRound(cfg, s.hist.published[m] + s.hist.lateDeaths[m]);
  }

  lemma TickKeepsAccounts(cfg: Cfg, s: State, d: real, m: Mid)
    requires TouchesOne(s, TickStep(s, d), m, 0) && Accounts(cfg, s, m)
    ensures Accounts(cfg, TickStep(s, d), m)
  {
    MeasuresMove(cfg, s, TickStep(s, d), m, 0);
  }

  lemma {:induction false} StepKeepsAccounts(cfg: Cfg, s: State, a: Action, m: Mid)
    requires Inv(cfg, s) && IdleOk(s) && IdleTimely(cfg, s) && Enabled(cfg, s, a)
    requires Accounts(cfg, s, m)
    ensures Accounts(cfg, Step(cfg, s, a), m)
  {
    var s' := Step(cfg, s, a);
    StepKeepsInv(cfg, s, a);
    StepKeepsIdle(cfg, s, a);
    StepTouchesOne(cfg, s, a, m);
    if !a.Go? {
      OthersOutline(cfg, s, a);
    }
    match a
    case Publish(_, _) => AppendKeepsAccounts(cfg, s, a, s', m);
    case PublishJunk(_) => AppendKeepsAccounts(cfg, s, a, s', m);
    case Deliver(_, _) => HandedOutIsFree(cfg, s, a); HandoutKeepsAccounts(cfg, s, a, s', m);
    case Adopt(_, _) => HandedOutIsFree(cfg, s, a); HandoutKeepsAccounts(cfg, s, a, s', m);
    case Go(h) => GoKeepsAccounts(cfg, s, h, m);
    case Answer(h, ok) => AnswerKeepsAccounts(cfg, s, h, ok, m);
    case Kill(h) => KillKeepsAccounts(cfg, s, h, m);
    case Tick(d) => TickKeepsAccounts(cfg, s, d, m);
  }

  lemma {:induction false} AccountsHold(cfg: Cfg, actions: seq<Action>, m: Mid)
    requires IdleTimelyRun(cfg, actions)
    ensures Accounts(cfg, Run(cfg, Init, actions), m)
  {
    if actions == [] { return; }
    var before, a := actions[..|actions| - 1], actions[|actions| - 1];
    var s := Run(cfg, Init, before);
    AccountsHold(cfg, before, m);
    Reachable(cfg, before);
    IdleHolds(cfg, before);
    if Enabled(cfg, s, a) {
      StepKeepsAccounts(cfg, s, a, m);
    }
  }

  // ----- the results -----

  /**
    Conservation. With idle timing, the entries standing for an id plus those
    acked without a replacement equal the times it was published plus the
    handlers that died between enqueue_event and XACK. So for an id published
    once its copies never exceed one plus those deaths.
   */
  lemma {:induction false} NoRetryAmplification(cfg: Cfg, actions: seq<Action>, m: Mid)
    requires IdleTimelyRun(cfg, actions)
    ensures var s := Run(cfg, Init, actions);
      CopyCount(s, m) + s.hist.settled[m] == s.hist.published[m] + s.hist.requeueDeaths[m]
  {
    AccountsHold(cfg, actions, m);
  }

  /**
    Attempt bound. With idle timing, the dispatches begun for an id never exceed
    RetryLimit + 1 for each time it was published and each handler that died on
    it between entering dispatch and XACK.
   */
  lemma {:induction false} AttemptBound(cfg: Cfg, actions: seq<Action>, m: Mid)
    requires IdleTimelyRun(cfg, actions)
    ensures var s := Run(cfg, Init, actions);
      && s.hist.posts[m] <= (cfg.RetryLimit() + 1) * (s.hist.published[m] + s.hist.lateDeaths[m])
      && s.hist.lateDeaths[m] <= s.hist.deaths[m]
  {
    AccountsHold(cfg, actions, m);
    AttemptsLeftIsNatural(cfg, actions, m);
    LateDeathsAreDeaths(cfg, actions, m);
  }

  lemma AttemptsLeftIsNatural(cfg: Cfg, actions: seq<Action>, m: Mid)
    ensures AttemptsLeft(cfg, Run(cfg, Init, actions), m) >= 0
  {
    Reachable(cfg, actions);
    var s := Run(cfg, Init, actions);
    forall id | 1 <= id <= s.store.lastId ensures AttemptWeights(cfg, s, m)(id) >= 0 {
      assert id in s.store.stream && s.store.stream[id].Json? ==>
        EventOk(s.hist.sources, s.store.stream[id].event, 0, cfg.RetryLimit());
    }
    SumBounds(AttemptWeights(cfg, s, m), s.store.lastId, 0);
  }

  lemma {:induction false} LateDeathsAreDeaths(cfg: Cfg, actions: seq<Action>, m: Mid)
    ensures var s := Run(cfg, Init, actions);
      s.hist.lateDeaths[m] <= s.hist.deaths[m] && s.hist.requeueDeaths[m] <= s.hist.lateDeaths[m]
  {
    if actions == [] { return; }
    var before, a := actions[..|actions| - 1], actions[|actions| - 1];
    var s := Run(cfg, Init, before);
    LateDeathsAreDeaths(cfg, before, m);
    Reachable(cfg, before);
    if Enabled(cfg, s, a) && !a.Go? && !a.Kill? {
      OthersOutline(cfg, s, a);
    }
  }
}
