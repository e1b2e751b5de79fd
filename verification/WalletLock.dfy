/** The wallet lock: a token-scoped row with a time to live, shared by the workers of several orchestrators. */
module WalletLock {
  import opened Wrappers

  type Wallet = string
  type Token = nat
  type WorkerId = nat

  // Seconds. The time to live outlasts the wallet timeout by the tail.
  const WALLET_FINALIZE_TIMEOUT: real := 3.0
  const WALLET_LOCK_RELEASE_TIMEOUT: real := 2.0
  const WALLET_LOCK_TTL_TAIL: real := WALLET_FINALIZE_TIMEOUT + WALLET_LOCK_RELEASE_TIMEOUT + 1.0

  datatype LockRow = LockRow(token: Token, until: real)

  predicate CanTake(rows: map<Wallet, LockRow>, w: Wallet, now: real) {
    w !in rows || rows[w].until <= now
  }

  /** The conditional upsert: a fresh row, or the takeover of an expired one. */
  function Taken(rows: map<Wallet, LockRow>, w: Wallet, now: real, ttl: real, token: Token): map<Wallet, LockRow> {
    if CanTake(rows, w, now) then rows[w := LockRow(token, now + ttl)] else rows
  }

  /** The delete, scoped by token. */
  function Released(rows: map<Wallet, LockRow>, w: Wallet, token: Token): map<Wallet, LockRow> {
    if w in rows && rows[w].token == token then rows - {w} else rows
  }

  datatype LockError = MissingWallet | InvalidTTL | MissingToken

  class LockTable {
    var rows: map<Wallet, LockRow>

    constructor ()
      ensures rows == map[]
    {
      rows := map[];
    }

    /** `holder` is the freshly generated token. */
    method AcquireWalletLock(w: Wallet, ttl: real, now: real, holder: Token) returns (r: Result<bool, LockError>)
      modifies this
      ensures r.Failure? <==> w == "" || ttl < 1.0
      ensures r.Failure? ==> rows == old(rows)
      ensures r.Success? ==> (r.value <==> w in old(rows) ==> old(rows)[w].until <= now)
      ensures r.Success? ==> rows == if r.value then old(rows)[w := LockRow(holder, now + ttl)] else old(rows)
      ensures r.Success? ==> r.value == CanTake(old(rows), w, now) && rows == Taken(old(rows), w, now, ttl, holder)
    {
      if w == "" { return Failure(MissingWallet); }
      if ttl < 1.0 { return Failure(InvalidTTL); }
      if w in rows && rows[w].until > now { return Success(false); }
      rows := rows[w := LockRow(holder, now + ttl)];
      return Success(true);
    }

    method ReleaseWalletLock(w: Wallet, holder: Option<Token>) returns (err: Option<LockError>)
      modifies this
      ensures err.Some? <==> w == "" || holder.None?
      ensures err.None? && w in old(rows) && old(rows)[w].token == holder.value ==> rows == old(rows) - {w}
      ensures err.Some? || w !in old(rows) || old(rows)[w].token != holder.value ==> rows == old(rows)
      ensures rows == if err.Some? then old(rows) else Released(old(rows), w, holder.value)
    {
      if w == "" { return Some(MissingWallet); }
      if holder.None? { return Some(MissingToken); }
      if w in rows && rows[w].token == holder.value { rows := rows - {w}; }
      return None;
    }
  }

  // ---- Workers in time ----

  /** Where a worker is. `start` is when its wallet context was created, `since` when its present phase began. */
  datatype Phase =
    | Starting(start: real)
    | Running(start: real, token: Token)
    | Finalizing(start: real, token: Token, since: real)
    | Releasing(start: real, token: Token, since: real)
    | Done
    | Crashed

  datatype Worker = Worker(wallet: Wallet, timeout: real, phase: Phase)

  datatype State = State(now: real, rows: map<Wallet, LockRow>, workers: map<WorkerId, Worker>, issued: set<Token>)

  const INIT := State(0.0, map[], map[], {})

  /** Between acquiring the lock and having finished with it. */
  predicate Holds(wk: Worker) { wk.phase.Running? || wk.phase.Finalizing? || wk.phase.Releasing? }

  /** When the context of the present phase expires. */
  function Deadline(wk: Worker): Option<real> {
    match wk.phase
    case Starting(start) => Some(start + wk.timeout)
    case Running(start, _) => Some(start + wk.timeout)
    case Finalizing(_, _, since) => Some(since + WALLET_FINALIZE_TIMEOUT)
    case Releasing(_, _, since) => Some(since + WALLET_LOCK_RELEASE_TIMEOUT)
    case Done => None
    case Crashed => None
  }

  datatype Step =
    | Spawn(id: WorkerId, wallet: Wallet, timeout: real)   // a worker of any orchestrator starts on a wallet
    | Acquire(id: WorkerId, token: Token)                  // the upsert, whether or not it takes the row
    | AcquireLost(id: WorkerId, token: Token)              // the upsert commits but the worker only sees an error
    | GiveUp(id: WorkerId)                                 // the acquisition fails or the context expires first
    | FinishRun(id: WorkerId)                              // the runner's body returns
    | BeginRelease(id: WorkerId)                           // the deferred release starts
    | Release(id: WorkerId)                                // the delete runs
    | AbandonRelease(id: WorkerId)                         // the release times out
    | Crash(id: WorkerId)
    | Tick(delay: real)

  /** Which steps can happen. With `timed`, time does not pass a live worker's deadline: contexts are honoured. */
  ghost predicate Enabled(s: State, step: Step, tail: real, timed: bool) {
    match step
    case Spawn(id, w, timeout) => id !in s.workers && w != "" && timeout > 0.0
    case Acquire(id, token) => id in s.workers && s.workers[id].phase.Starting? && token !in s.issued && s.workers[id].timeout + tail >= 1.0
    case AcquireLost(id, token) => id in s.workers && s.workers[id].phase.Starting? && token !in s.issued && s.workers[id].timeout + tail >= 1.0
    case GiveUp(id) => id in s.workers && s.workers[id].phase.Starting?
    case FinishRun(id) => id in s.workers && s.workers[id].phase.Running?
    case BeginRelease(id) => id in s.workers && (s.workers[id].phase.Running? || s.workers[id].phase.Finalizing?)
    case Release(id) => id in s.workers && s.workers[id].phase.Releasing?
    case AbandonRelease(id) => id in s.workers && s.workers[id].phase.Releasing?
    case Crash(id) => id in s.workers && s.workers[id].phase != Done
    case Tick(delay) => delay >= 0.0 && (timed ==> forall id :: id in s.workers && Deadline(s.workers[id]).Some? ==>
                                                  s.now + delay <= Deadline(s.workers[id]).value)
  }

  function Move(s: State, id: WorkerId, phase: Phase): State
    requires id in s.workers
  {
    s.(workers := s.workers[id := s.workers[id].(phase := phase)])
  }

  ghost function Apply(s: State, step: Step, tail: real, timed: bool): State
    requires Enabled(s, step, tail, timed)
  {
    match step
    case Spawn(id, w, timeout) => s.(workers := s.workers[id := Worker(w, timeout, Starting(s.now))])
    case Acquire(id, token) =>
      var wk := s.workers[id];
      var phase := if CanTake(s.rows, wk.wallet, s.now) then Running(wk.phase.start, token) else Done;
      Move(s, id, phase).(rows := Taken(s.rows, wk.wallet, s.now, wk.timeout + tail, token), issued := s.issued + {token})
    case AcquireLost(id, token) =>
      var wk := s.workers[id];
      Move(s, id, Done).(rows := Taken(s.rows, wk.wallet, s.now, wk.timeout + tail, token), issued := s.issued + {token})
    case GiveUp(id) => Move(s, id, Done)
    case FinishRun(id) =>
      var p := s.workers[id].phase;
      Move(s, id, Finalizing(p.start, p.token, s.now))
    case BeginRelease(id) =>
      var p := s.workers[id].phase;
      Move(s, id, Releasing(p.start, p.token, s.now))
    case Release(id) => Move(s, id, Done).(rows := Released(s.rows, s.workers[id].wallet, s.workers[id].phase.token))
    case AbandonRelease(id) => Move(s, id, Done)
    case Crash(id) => Move(s, id, Crashed)
    case Tick(delay) => s.(now := s.now + delay)
  }

  /** The state after a schedule, if every step of it could happen. */
  ghost function Execute(steps: seq<Step>, tail: real, timed: bool): Option<State> {
    if steps == [] then Some(INIT)
    else
      match Execute(steps[..|steps| - 1], tail, timed)
      case None => None
      case Some(s) =>
        var step := steps[|steps| - 1];
        if Enabled(s, step, tail, timed) then Some(Apply(s, step, tail, timed)) else None
  }

  /** No two workers run, finalize or release on one wallet at once. */
  predicate MutualExclusion(s: State) {
    forall i, j :: i in s.workers && j in s.workers && i != j && Holds(s.workers[i]) && Holds(s.workers[j]) ==>
      s.workers[i].wallet != s.workers[j].wallet
  }

  /** Tokens name their acquisition: no two holders share one, and every row's token was issued. */
  predicate TokensDistinct(s: State) {
    && (forall i :: i in s.workers && Holds(s.workers[i]) ==> s.workers[i].phase.token in s.issued)
    && (forall i, j :: i in s.workers && j in s.workers && i != j && Holds(s.workers[i]) && Holds(s.workers[j]) ==>
         s.workers[i].phase.token != s.workers[j].phase.token)
    && (forall w :: w in s.rows ==> s.rows[w].token in s.issued)
  }

  /** A holder after a step held the same token before it, or has just acquired a fresh one. */
  lemma HolderOrigin(s: State, step: Step, tail: real, timed: bool, i: WorkerId)
    requires Enabled(s, step, tail, timed)
    requires i in Apply(s, step, tail, timed).workers && Holds(Apply(s, step, tail, timed).workers[i])
    ensures var wk := Apply(s, step, tail, timed).workers[i];
            i in s.workers && wk.wallet == s.workers[i].wallet && wk.timeout == s.workers[i].timeout
            && ((Holds(s.workers[i]) && wk.phase.token == s.workers[i].phase.token && wk.phase.start == s.workers[i].phase.start)
                || (step == Acquire(i, wk.phase.token) && s.workers[i].phase.Starting? && wk.phase.start == s.workers[i].phase.start
                    && CanTake(s.rows, wk.wallet, s.now) && wk.phase.Running?))
  {
  }

  /** A row after a step was there before it, or has just been written with a fresh token. */
  lemma RowOrigin(s: State, step: Step, tail: real, timed: bool, w: Wallet)
    requires Enabled(s, step, tail, timed) && w in Apply(s, step, tail, timed).rows
    ensures var t := Apply(s, step, tail, timed);
            (w in s.rows && t.rows[w] == s.rows[w]) || (t.rows[w].token in t.issued && t.rows[w].token !in s.issued)
    ensures s.issued <= Apply(s, step, tail, timed).issued
  {
  }

  lemma TokensStep(s: State, step: Step, tail: real, timed: bool)
    requires TokensDistinct(s) && Enabled(s, step, tail, timed)
    ensures TokensDistinct(Apply(s, step, tail, timed))
  {
    hide Enabled, Apply;
    var t := Apply(s, step, tail, timed);
    forall i | i in t.workers && Holds(t.workers[i]) ensures t.workers[i].phase.token in t.issued { FreshOrOld(s, step, tail, timed, i); }
    forall i, j | i in t.workers && j in t.workers && i != j && Holds(t.workers[i]) && Holds(t.workers[j])
      ensures t.workers[i].phase.token != t.workers[j].phase.token
    {
      FreshOrOld(s, step, tail, timed, i);
      FreshOrOld(s, step, tail, timed, j);
    }
    forall w | w in t.rows ensures t.rows[w].token in t.issued { RowOrigin(s, step, tail, timed, w); }
  }

  lemma FreshOrOld(s: State, step: Step, tail: real, timed: bool, i: WorkerId)
    requires Enabled(s, step, tail, timed)
    requires i in Apply(s, step, tail, timed).workers && Holds(Apply(s, step, tail, timed).workers[i])
    ensures var t := Apply(s, step, tail, timed);
            var k := t.workers[i].phase.token;
            && s.issued <= t.issued
            && ((i in s.workers && Holds(s.workers[i]) && k == s.workers[i].phase.token) || (step == Acquire(i, k) && k !in s.issued && k in t.issued))
  {
    HolderOrigin(s, step, tail, timed, i);
  }

  lemma {:induction false} TokensStayDistinct(steps: seq<Step>, tail: real, timed: bool)
    ensures var r := Execute(steps, tail, timed); r.Some? ==> TokensDistinct(r.value)
  {
    if steps != [] {
      hide Enabled, Apply, TokensDistinct;
      TokensStayDistinct(steps[..|steps| - 1], tail, timed);
      var r := Execute(steps[..|steps| - 1], tail, timed);
      if r.Some? && Enabled(r.value, steps[|steps| - 1], tail, timed) { TokensStep(r.value, steps[|steps| - 1], tail, timed); }
    }
  }

  /** Whatever the timing, a release removes no row but the releaser's own: every row another acquisition wrote stays. */
  lemma StaleReleaseIsHarmless(steps: seq<Step>, id: WorkerId, tail: real, timed: bool, w: Wallet)
    requires Execute(steps, tail, timed).Some? && Execute(steps + [Release(id)], tail, timed).Some?
    ensures var s, t := Execute(steps, tail, timed).value, Execute(steps + [Release(id)], tail, timed).value;
            && (w in s.rows && s.rows[w].token != s.workers[id].phase.token ==> w in t.rows && t.rows[w] == s.rows[w])
            && (forall j :: j in s.workers && j != id && Holds(s.workers[j]) && w in s.rows && s.rows[w].token == s.workers[j].phase.token ==>
                  w in t.rows && t.rows[w] == s.rows[w])
  {
    assert (steps + [Release(id)])[..|steps|] == steps;
    TokensStayDistinct(steps, tail, timed);
  }

  /** The timing facts about one worker. */
  predicate OnTime(s: State, wk: Worker, tail: real) {
    match wk.phase
    case Starting(start) => start <= s.now <= start + wk.timeout
    case Running(start, _) => s.now <= start + wk.timeout
    case Finalizing(start, _, since) => since <= start + wk.timeout && s.now <= since + WALLET_FINALIZE_TIMEOUT
    case Releasing(start, _, since) =>
      since <= start + wk.timeout + WALLET_FINALIZE_TIMEOUT && s.now <= since + WALLET_LOCK_RELEASE_TIMEOUT
    case Done => true
    case Crashed => true
  }

  /** A holder's row is still its own and outlives it. */
  predicate OwnsRow(s: State, wk: Worker, tail: real) {
    Holds(wk) ==>
      && wk.wallet in s.rows && s.rows[wk.wallet].token == wk.phase.token
      && s.rows[wk.wallet].until >= wk.phase.start + wk.timeout + tail
  }

  predicate Invariant(s: State, tail: real) {
    && TokensDistinct(s)
    && forall i :: i in s.workers ==> s.workers[i].timeout > 0.0 && OnTime(s, s.workers[i], tail) && OwnsRow(s, s.workers[i], tail)
  }

  /** While someone holds a wallet, its row has not expired. */
  lemma HeldRowIsLive(s: State, tail: real, i: WorkerId)
    requires tail > WALLET_FINALIZE_TIMEOUT + WALLET_LOCK_RELEASE_TIMEOUT
    requires Invariant(s, tail) && i in s.workers && Holds(s.workers[i])
    ensures !CanTake(s.rows, s.workers[i].wallet, s.now)
  {
    assert OnTime(s, s.workers[i], tail) && OwnsRow(s, s.workers[i], tail);
  }

  lemma StaysOnTime(s: State, step: Step, tail: real, i: WorkerId)
    requires Enabled(s, step, tail, true) && i in Apply(s, step, tail, true).workers
    requires i in s.workers ==> s.workers[i].timeout > 0.0 && OnTime(s, s.workers[i], tail)
    ensures Apply(s, step, tail, true).workers[i].timeout > 0.0
    ensures OnTime(Apply(s, step, tail, true), Apply(s, step, tail, true).workers[i], tail)
  {
    if step.Tick? && i in s.workers { assert Deadline(s.workers[i]).Some? ==> s.now + step.delay <= Deadline(s.workers[i]).value; }
  }

  /** A step leaves a held row alone unless its own holder releases it. */
  lemma HeldRowStays(s: State, step: Step, tail: real, i: WorkerId)
    requires tail > WALLET_FINALIZE_TIMEOUT + WALLET_LOCK_RELEASE_TIMEOUT
    requires Invariant(s, tail) && Enabled(s, step, tail, true)
    requires i in s.workers && Holds(s.workers[i]) && Holds(Apply(s, step, tail, true).workers[i])
    ensures var w := s.workers[i].wallet; w in s.rows && w in Apply(s, step, tail, true).rows && Apply(s, step, tail, true).rows[w] == s.rows[w]
  {
    HeldRowIsLive(s, tail, i);
    assert OwnsRow(s, s.workers[i], tail);
    if step.Release? { assert step.id != i && s.workers[step.id].phase.token != s.workers[i].phase.token; }
  }

  lemma StaysOwner(s: State, step: Step, tail: real, i: WorkerId)
    requires tail > WALLET_FINALIZE_TIMEOUT + WALLET_LOCK_RELEASE_TIMEOUT
    requires Invariant(s, tail) && Enabled(s, step, tail, true) && i in Apply(s, step, tail, true).workers
    ensures OwnsRow(Apply(s, step, tail, true), Apply(s, step, tail, true).workers[i], tail)
  {
    var t := Apply(s, step, tail, true);
    if Holds(t.workers[i]) {
      HolderOrigin(s, step, tail, true, i);
      assert OnTime(s, s.workers[i], tail);
      if Holds(s.workers[i]) {
        hide Apply, Enabled;
        HeldRowStays(s, step, tail, i);
        assert OwnsRow(s, s.workers[i], tail);
      }
    }
  }

  lemma InvariantStep(s: State, step: Step, tail: real)
    requires tail > WALLET_FINALIZE_TIMEOUT + WALLET_LOCK_RELEASE_TIMEOUT
    requires Invariant(s, tail) && Enabled(s, step, tail, true)
    ensures Invariant(Apply(s, step, tail, true), tail)
  {
    hide Enabled, Apply, OwnsRow, OnTime, TokensDistinct;
    TokensStep(s, step, tail, true);
    forall i | i in Apply(s, step, tail, true).workers
      ensures Apply(s, step, tail, true).workers[i].timeout > 0.0
      ensures OnTime(Apply(s, step, tail, true), Apply(s, step, tail, true).workers[i], tail)
      ensures OwnsRow(Apply(s, step, tail, true), Apply(s, step, tail, true).workers[i], tail)
    {
      StaysOnTime(s, step, tail, i);
      StaysOwner(s, step, tail, i);
    }
  }

  lemma {:induction false} InvariantAlways(steps: seq<Step>, tail: real)
    requires tail > WALLET_FINALIZE_TIMEOUT + WALLET_LOCK_RELEASE_TIMEOUT
    ensures var r := Execute(steps, tail, true); r.Some? ==> Invariant(r.value, tail)
  {
    if steps != [] {
      InvariantAlways(steps[..|steps| - 1], tail);
      var r := Execute(steps[..|steps| - 1], tail, true);
      if r.Some? && Enabled(r.value, steps[|steps| - 1], tail, true) { InvariantStep(r.value, steps[|steps| - 1], tail); }
    }
  }

  lemma InvariantExcludes(s: State, tail: real)
    requires Invariant(s, tail)
    ensures MutualExclusion(s)
  {
    forall i, j | i in s.workers && j in s.workers && i != j && Holds(s.workers[i]) && Holds(s.workers[j])
      ensures s.workers[i].wallet != s.workers[j].wallet
    {
      assert OwnsRow(s, s.workers[i], tail) && OwnsRow(s, s.workers[j], tail);
    }
  }

  /** Every schedule keeps the exclusion. */
  ghost predicate SafeTail(tail: real) {
    forall steps :: Execute(steps, tail, true).Some? ==> MutualExclusion(Execute(steps, tail, true).value)
  }

  lemma ExecuteSnoc(steps: seq<Step>, step: Step, tail: real, s: State)
    requires Execute(steps, tail, true) == Some(s) && Enabled(s, step, tail, true)
    ensures Execute(steps + [step], tail, true) == Some(Apply(s, step, tail, true))
  {
    assert (steps + [step])[..|steps|] == steps;
  }

  /** One worker holding "w" since time zero, in the given phase. */
  function Alone(now: real, timeout: real, tail: real, phase: Phase): State {
    State(now, map["w" := LockRow(0, timeout + tail)], map[0 := Worker("w", timeout, phase)], {0})
  }

  /** One worker about to ask for "w". */
  function Begun(timeout: real): State { State(0.0, map[], map[0 := Worker("w", timeout, Starting(0.0))], {}) }

  lemma Spawns(tail: real, timeout: real)
    requires timeout >= 1.0 && timeout + tail >= 1.0
    ensures var step := Spawn(0, "w", timeout); Enabled(INIT, step, tail, true) && Apply(INIT, step, tail, true) == Begun(timeout)
  {
  }

  lemma Takes(tail: real, timeout: real)
    requires timeout >= 1.0 && timeout + tail >= 1.0
    ensures var s, step := Begun(timeout), Acquire(0, 0);
            Enabled(s, step, tail, true) && Apply(s, step, tail, true) == Alone(0.0, timeout, tail, Running(0.0, 0))
  {
    var s, step := Begun(timeout), Acquire(0, 0);
    var held := Alone(0.0, timeout, tail, Running(0.0, 0));
    assert CanTake(s.rows, "w", 0.0);
    assert Taken(s.rows, "w", 0.0, timeout + tail, 0) == held.rows;
    assert s.issued + {0} == held.issued;
    assert s.workers[0 := s.workers[0].(phase := Running(0.0, 0))] == held.workers;
  }

  lemma Acquires(tail: real, timeout: real) returns (steps: seq<Step>)
    requires timeout >= 1.0 && timeout + tail >= 1.0
    ensures Execute(steps, tail, true) == Some(Alone(0.0, timeout, tail, Running(0.0, 0)))
  {
    var spawn, acquire := Spawn(0, "w", timeout), Acquire(0, 0);
    Spawns(tail, timeout);
    Takes(tail, timeout);
    hide Apply, Enabled;
    ExecuteSnoc([], spawn, tail, INIT);
    ExecuteSnoc([] + [spawn], acquire, tail, Begun(timeout));
    steps := [] + [spawn] + [acquire];
  }

  lemma Finalizes(tail: real, timeout: real) returns (steps: seq<Step>)
    requires timeout >= 1.0 && timeout + tail >= 1.0
    ensures Execute(steps, tail, true) == Some(Alone(timeout, timeout, tail, Finalizing(0.0, 0, timeout)))
  {
    var before := Acquires(tail, timeout);
    var s := Alone(0.0, timeout, tail, Running(0.0, 0));
    ExecuteSnoc(before, Tick(timeout), tail, s);
    var t := Apply(s, Tick(timeout), tail, true);
    ExecuteSnoc(before + [Tick(timeout)], FinishRun(0), tail, t);
    steps := before + [Tick(timeout)] + [FinishRun(0)];
    assert Apply(t, FinishRun(0), tail, true) == Alone(timeout, timeout, tail, Finalizing(0.0, 0, timeout));
  }

  /** Contexts honoured to the last moment: the worker is still releasing at timeout + 5. */
  lemma Lingers(tail: real, timeout: real) returns (steps: seq<Step>)
    requires timeout >= 1.0 && timeout + tail >= 1.0
    ensures var since := timeout + WALLET_FINALIZE_TIMEOUT;
            Execute(steps, tail, true) == Some(Alone(since + WALLET_LOCK_RELEASE_TIMEOUT, timeout, tail, Releasing(0.0, 0, since)))
  {
    var before := Finalizes(tail, timeout);
    var s := Alone(timeout, timeout, tail, Finalizing(0.0, 0, timeout));
    ExecuteSnoc(before, Tick(WALLET_FINALIZE_TIMEOUT), tail, s);
    var t := Apply(s, Tick(WALLET_FINALIZE_TIMEOUT), tail, true);
    steps := before + [Tick(WALLET_FINALIZE_TIMEOUT)];
    ExecuteSnoc(steps, BeginRelease(0), tail, t);
    var u := Alone(t.now, timeout, tail, Releasing(0.0, 0, t.now));
    assert Apply(t, BeginRelease(0), tail, true) == u;
    steps := steps + [BeginRelease(0)];
    ExecuteSnoc(steps, Tick(WALLET_LOCK_RELEASE_TIMEOUT), tail, u);
    steps := steps + [Tick(WALLET_LOCK_RELEASE_TIMEOUT)];
  }

  /** With too short a tail a second worker takes the row while the first is still releasing it. */
  lemma ShortTailOverlaps(tail: real, timeout: real)
    requires tail <= WALLET_FINALIZE_TIMEOUT + WALLET_LOCK_RELEASE_TIMEOUT
    requires timeout >= 1.0 && timeout + tail >= 1.0
    ensures !SafeTail(tail)
  {
    var steps := Lingers(tail, timeout);
    var s := Execute(steps, tail, true).value;
    var spawn := Spawn(1, "w", timeout);
    ExecuteSnoc(steps, spawn, tail, s);
    var t := Apply(s, spawn, tail, true);
    ExecuteSnoc(steps + [spawn], Acquire(1, 1), tail, t);
    var u := Apply(t, Acquire(1, 1), tail, true);
    assert Holds(u.workers[0]) && Holds(u.workers[1]) && u.workers[0].wallet == u.workers[1].wallet;
    assert !MutualExclusion(u);
  }

  /** The lock is safe exactly when the tail outlasts finalization and release together. */
  lemma SafeTailExact(tail: real)
    ensures SafeTail(tail) <==> tail > 5.0
  {
    if tail > WALLET_FINALIZE_TIMEOUT + WALLET_LOCK_RELEASE_TIMEOUT {
      forall steps | Execute(steps, tail, true).Some? ensures MutualExclusion(Execute(steps, tail, true).value) {
        InvariantAlways(steps, tail);
        InvariantExcludes(Execute(steps, tail, true).value, tail);
      }
    } else {
      ShortTailOverlaps(tail, if tail >= 0.0 then 1.0 else 1.0 - tail);
    }
  }

  /** The configured tail is safe. */
  lemma ConfiguredLockIsSafe()
    ensures SafeTail(WALLET_LOCK_TTL_TAIL)
  {
    SafeTailExact(WALLET_LOCK_TTL_TAIL);
  }
}
