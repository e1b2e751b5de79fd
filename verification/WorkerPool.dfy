/** The fan-out of a run: a semaphore bounds the workers, a buffered channel collects one outcome per wallet. */
module WorkerPool {
  import opened Wrappers
  import opened Sorting

  type Address = string

  /** Workers by stage: before the semaphore, inside it, outcome sent but slot not yet returned, gone. */
  datatype Pool<O> = Pool(
    cancelled: bool, waiting: set<Address>, running: set<Address>, leaving: set<Address>, finished: set<Address>,
    channel: seq<(Address, O)>)

  datatype PoolStep<O> =
    | CancelRun                            // the run context expires or is cancelled
    | Enter(address: Address)              // the semaphore admits the worker
    | GiveUp(address: Address, outcome: O) // the context ends first; the context's error is the outcome
    | Send(address: Address, outcome: O)   // runWallet returned
    | Leave(address: Address)              // the slot is returned

  function Start<O>(wallets: set<Address>): Pool<O> { Pool(false, wallets, {}, {}, {}, []) }

  predicate Enabled<O>(s: Pool<O>, step: PoolStep<O>, slots: nat) {
    match step
    case CancelRun => !s.cancelled
    case Enter(a) => a in s.waiting && |s.running| + |s.leaving| < slots
    case GiveUp(a, _) => a in s.waiting && s.cancelled
    case Send(a, _) => a in s.running
    case Leave(a) => a in s.leaving
  }

  function Apply<O>(s: Pool<O>, step: PoolStep<O>): Pool<O> {
    match step
    case CancelRun => s.(cancelled := true)
    case Enter(a) => s.(waiting := s.waiting - {a}, running := s.running + {a})
    case GiveUp(a, o) => s.(waiting := s.waiting - {a}, finished := s.finished + {a}, channel := s.channel + [(a, o)])
    case Send(a, o) => s.(running := s.running - {a}, leaving := s.leaving + {a}, channel := s.channel + [(a, o)])
    case Leave(a) => s.(leaving := s.leaving - {a}, finished := s.finished + {a})
  }

  function Execute<O>(wallets: set<Address>, slots: nat, steps: seq<PoolStep<O>>): Option<Pool<O>> {
    if steps == [] then Some(Start(wallets))
    else
      match Execute(wallets, slots, steps[..|steps| - 1])
      case None => None
      case Some(s) =>
        var step := steps[|steps| - 1];
        if Enabled(s, step, slots) then Some(Apply(s, step)) else None
  }

  function Addresses<O>(channel: seq<(Address, O)>): seq<Address> {
    seq(|channel|, i requires 0 <= i < |channel| => channel[i].0)
  }

  /** Each element of `w` is in exactly one of the four sets, and nothing else is in any. */
  ghost predicate Parts(a: set<Address>, b: set<Address>, c: set<Address>, d: set<Address>, w: set<Address>) {
    && (forall x :: x in a ==> x in w && x !in b && x !in c && x !in d)
    && (forall x :: x in b ==> x in w && x !in c && x !in d)
    && (forall x :: x in c ==> x in w && x !in d)
    && (forall x :: x in d ==> x in w)
    && (forall x :: x in w ==> x in a || x in b || x in c || x in d)
  }

  /** The channel holds one outcome of each worker past sending. */
  ghost predicate Collects<O>(channel: seq<(Address, O)>, leaving: set<Address>, finished: set<Address>) {
    && Distinct(Addresses(channel)) && |channel| == |leaving| + |finished|
    && (forall a :: a in Addresses(channel) <==> a in leaving || a in finished)
  }

  /** Every wallet is at one stage, the bound holds, and the channel holds what was sent. */
  ghost predicate Sound<O>(s: Pool<O>, wallets: set<Address>, slots: nat) {
    && Parts(s.waiting, s.running, s.leaving, s.finished, wallets)
    && |s.running| + |s.leaving| <= slots
    && Collects(s.channel, s.leaving, s.finished)
  }

  lemma SendAppends<O>(channel: seq<(Address, O)>, a: Address, o: O)
    requires a !in Addresses(channel) && Distinct(Addresses(channel))
    ensures Distinct(Addresses(channel + [(a, o)]))
    ensures forall x :: x in Addresses(channel + [(a, o)]) <==> x in Addresses(channel) || x == a
  {
    assert Addresses(channel + [(a, o)]) == Addresses(channel) + [a];
  }

  lemma Grow<T>(s: set<T>, x: T)
    requires x !in s
    ensures |s + {x}| == |s| + 1
  {
  }

  lemma Shrink<T>(s: set<T>, x: T)
    requires x in s
    ensures |s - {x}| == |s| - 1
  {
  }

  lemma EnterKeepsSound<O>(s: Pool<O>, a: Address, wallets: set<Address>, slots: nat)
    requires Sound(s, wallets, slots) && a in s.waiting && |s.running| + |s.leaving| < slots
    ensures Sound(s.(waiting := s.waiting - {a}, running := s.running + {a}), wallets, slots)
  {
    hide Collects;
    Grow(s.running, a);
  }

  lemma GiveUpCollects<O>(channel: seq<(Address, O)>, leaving: set<Address>, finished: set<Address>, a: Address, o: O)
    requires Collects(channel, leaving, finished) && a !in leaving && a !in finished
    ensures Collects(channel + [(a, o)], leaving, finished + {a})
  {
    Grow(finished, a);
    SendAppends(channel, a, o);
  }

  lemma GiveUpKeepsSound<O>(s: Pool<O>, a: Address, o: O, wallets: set<Address>, slots: nat)
    requires Sound(s, wallets, slots) && a in s.waiting
    ensures Sound(s.(waiting := s.waiting - {a}, finished := s.finished + {a}, channel := s.channel + [(a, o)]), wallets, slots)
  {
    hide Collects;
    GiveUpCollects(s.channel, s.leaving, s.finished, a, o);
  }

  lemma SendCollects<O>(channel: seq<(Address, O)>, leaving: set<Address>, finished: set<Address>, a: Address, o: O)
    requires Collects(channel, leaving, finished) && a !in leaving && a !in finished
    ensures Collects(channel + [(a, o)], leaving + {a}, finished)
  {
    Grow(leaving, a);
    SendAppends(channel, a, o);
  }

  lemma SendKeepsSound<O>(s: Pool<O>, a: Address, o: O, wallets: set<Address>, slots: nat)
    requires Sound(s, wallets, slots) && a in s.running
    ensures Sound(s.(running := s.running - {a}, leaving := s.leaving + {a}, channel := s.channel + [(a, o)]), wallets, slots)
  {
    hide Collects;
    SendCollects(s.channel, s.leaving, s.finished, a, o);
    Grow(s.leaving, a);
    Shrink(s.running, a);
  }

  lemma LeaveCollects<O>(channel: seq<(Address, O)>, leaving: set<Address>, finished: set<Address>, a: Address)
    requires Collects(channel, leaving, finished) && a in leaving && a !in finished
    ensures Collects(channel, leaving - {a}, finished + {a})
  {
    Shrink(leaving, a);
    Grow(finished, a);
  }

  lemma LeaveKeepsSound<O>(s: Pool<O>, a: Address, wallets: set<Address>, slots: nat)
    requires Sound(s, wallets, slots) && a in s.leaving
    ensures Sound(s.(leaving := s.leaving - {a}, finished := s.finished + {a}), wallets, slots)
  {
    hide Collects;
    LeaveCollects(s.channel, s.leaving, s.finished, a);
    Shrink(s.leaving, a);
  }

  lemma CancelKeepsSound<O>(s: Pool<O>, wallets: set<Address>, slots: nat)
    requires Sound(s, wallets, slots)
    ensures Sound(s.(cancelled := true), wallets, slots)
  {
  }

  lemma SoundStep<O>(s: Pool<O>, step: PoolStep<O>, wallets: set<Address>, slots: nat)
    requires Sound(s, wallets, slots) && Enabled(s, step, slots)
    ensures Sound(Apply(s, step), wallets, slots)
  {
    hide Sound;
    if step.CancelRun? { CancelKeepsSound(s, wallets, slots); }
    match step
    case CancelRun =>
    case Enter(a) => EnterKeepsSound(s, a, wallets, slots);
    case GiveUp(a, o) => GiveUpKeepsSound(s, a, o, wallets, slots);
    case Send(a, o) => SendKeepsSound(s, a, o, wallets, slots);
    case Leave(a) => LeaveKeepsSound(s, a, wallets, slots);
  }

  /** At most `slots` workers are inside the semaphore on every schedule, and outcomes never mix. */
  lemma {:induction false} AlwaysSound<O>(wallets: set<Address>, slots: nat, steps: seq<PoolStep<O>>)
    ensures var r := Execute(wallets, slots, steps); r.Some? ==> Sound(r.value, wallets, slots)
  {
    if steps != [] {
      var before := steps[..|steps| - 1];
      AlwaysSound(wallets, slots, before);
      var r := Execute(wallets, slots, before);
      if r.Some? && Enabled(r.value, steps[|steps| - 1], slots) { SoundStep(r.value, steps[|steps| - 1], wallets, slots); }
    }
  }

  lemma SubsetSize<T>(a: set<T>, b: set<T>)
    requires a <= b
    ensures |a| <= |b|
  {
    assert |b| == |a| + |b - a| by { assert b == a + (b - a); }
  }

  /** A channel with one buffer slot per wallet never blocks a sender. */
  lemma SendNeverBlocks<O>(wallets: set<Address>, slots: nat, steps: seq<PoolStep<O>>, step: PoolStep<O>)
    requires var r := Execute(wallets, slots, steps); r.Some? && Enabled(r.value, step, slots)
    requires step.Send? || step.GiveUp?
    ensures |Execute(wallets, slots, steps).value.channel| < |wallets|
  {
    AlwaysSound(wallets, slots, steps);
    var s := Execute(wallets, slots, steps).value;
    var past := s.leaving + s.finished;
    assert s.leaving !! s.finished && |past| == |s.leaving| + |s.finished| && step.address !in past;
    SubsetSize(past + {step.address}, wallets);
  }

  predicate Over<O>(s: Pool<O>) { s.waiting == {} && s.running == {} && s.leaving == {} }

  function Remaining<O>(s: Pool<O>): nat {
    3 * |s.waiting| + 2 * |s.running| + |s.leaving| + if s.cancelled then 0 else 1
  }

  /** Every step brings the end nearer, so no schedule runs for ever. */
  lemma StepsRunOut<O>(s: Pool<O>, step: PoolStep<O>, slots: nat)
    requires Enabled(s, step, slots) && s.waiting !! s.running && s.running !! s.leaving
    ensures Remaining(Apply(s, step)) < Remaining(s)
  {
    match step
    case CancelRun =>
    case Enter(a) => assert |s.waiting - {a}| == |s.waiting| - 1 && |s.running + {a}| == |s.running| + 1;
    case GiveUp(a, _) => assert |s.waiting - {a}| == |s.waiting| - 1;
    case Send(a, _) => assert |s.running - {a}| == |s.running| - 1 && |s.leaving + {a}| == |s.leaving| + 1;
    case Leave(a) => assert |s.leaving - {a}| == |s.leaving| - 1;
  }

  /** No schedule is longer than three steps a wallet and one cancellation. */
  lemma {:induction false} SchedulesAreBounded<O>(wallets: set<Address>, slots: nat, steps: seq<PoolStep<O>>)
    ensures var r := Execute(wallets, slots, steps); r.Some? ==> |steps| + Remaining(r.value) <= 3 * |wallets| + 1
  {
    if steps != [] {
      var before := steps[..|steps| - 1];
      SchedulesAreBounded(wallets, slots, before);
      AlwaysSound(wallets, slots, before);
      var r := Execute(wallets, slots, before);
      if r.Some? && Enabled(r.value, steps[|steps| - 1], slots) { StepsRunOut(r.value, steps[|steps| - 1], slots); }
    }
  }

  /** Until every worker is gone something other than a cancellation can happen: with a slot there is no deadlock. */
  lemma NoDeadlock<O>(s: Pool<O>, slots: nat, outcome: O) returns (step: PoolStep<O>)
    requires slots >= 1 && !Over(s)
    ensures Enabled(s, step, slots) && step != CancelRun
  {
    if a :| a in s.running { return Send(a, outcome); }
    if a :| a in s.leaving { return Leave(a); }
    var a :| a in s.waiting;
    return Enter(a);
  }

  /** When all workers are gone the channel holds exactly one outcome per wallet. */
  lemma OneOutcomeEach<O>(wallets: set<Address>, slots: nat, steps: seq<PoolStep<O>>)
    requires var r := Execute(wallets, slots, steps); r.Some? && Over(r.value)
    ensures var c := Execute(wallets, slots, steps).value.channel;
            && |c| == |wallets| && Distinct(Addresses(c))
            && (forall a :: a in Addresses(c) <==> a in wallets)
  {
    AlwaysSound(wallets, slots, steps);
    var s := Execute(wallets, slots, steps).value;
    assert s.finished == wallets;
  }
}
