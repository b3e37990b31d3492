/** The rebind worker of the VPN service: a request flag, a worker slot, and the shim call it serves. */
module RebindProtocol {

  /** Where a thread that entered rebindNode is; `Gone` once it returned or its worker ended. */
  datatype Pc =
    | Asking         // about to set rebindRequested
    | Claiming       // about to compareAndSet the worker slot
    | Looking        // worker: about to read rebindRequested
    | Settling       // asleep until the burst is over
    | Clearing       // about to clear rebindRequested
    | Starting       // about to enter rebindOnce
    | InPass         // in rebindOnce, the shim not called yet
    | EnteringShim   // about to swap REBINDING
    | InShim         // REBINDING taken
    | LeavingShim    // about to release REBINDING
    | Finishing      // rebindOnce after its shim call
    | Releasing      // about to release the worker slot
    | Rechecking     // slot released, about to read rebindRequested again
    | Reclaiming     // it was set, about to compareAndSet the slot
    | Dying          // caught a Throwable, about to release the slot
    | Gone

  datatype State = State(
    requested: bool,
    slot: bool,         // `rebinding`
    shimBusy: bool,     // the shim's REBINDING
    threads: seq<Pc>,
    // history
    clock: nat,
    lastRequest: nat,   // when the flag was last set, 0 for never
    lastPass: nat,      // when a pass last started, 0 for never
    dropped: bool,      // the shim found REBINDING taken
    thrown: bool)

  datatype Event =
    | Call                          // a callback enters rebindNode
    | Step(t: nat, callShim: bool)  // thread t goes on; a pass may return without calling the shim
    | Throw(t: nat)                 // the sleep or the pass throws

  const INITIAL := State(false, false, false, [], 1, 0, 0, false, false)

  /** The thread owns the worker slot. */
  predicate Holds(pc: Pc) {
    match pc
    case Looking => true
    case Settling => true
    case Clearing => true
    case Starting => true
    case InPass => true
    case EnteringShim => true
    case InShim => true
    case LeavingShim => true
    case Finishing => true
    case Releasing => true
    case Dying => true
    case _ => false
  }

  predicate InsideShim(pc: Pc) { pc.InShim? || pc.LeavingShim? }

  /** The thread is going to read the request flag, or to hand that duty to the slot's owner. */
  predicate WillLook(pc: Pc) { !pc.Asking? && !pc.Dying? && !pc.Gone? }

  predicate Enabled(s: State, e: Event) {
    match e
    case Call => true
    case Step(t, _) => t < |s.threads| && !s.threads[t].Gone?
    case Throw(t) => t < |s.threads| && (s.threads[t].Settling? || s.threads[t].InPass? || s.threads[t].Finishing?)
  }

  function PcNext(s: State, pc: Pc, callShim: bool): Pc {
    match pc
    case Asking => Claiming
    case Claiming => if s.slot then Gone else Looking
    case Looking => if s.requested then Settling else Releasing
    case Settling => Clearing
    case Clearing => Starting
    case Starting => InPass
    case InPass => if callShim then EnteringShim else Finishing
    case EnteringShim => if s.shimBusy then Finishing else InShim
    case InShim => LeavingShim
    case LeavingShim => Finishing
    case Finishing => Looking
    case Releasing => Rechecking
    case Rechecking => if s.requested then Reclaiming else Gone
    case Reclaiming => if s.slot then Gone else Looking
    case Dying => Gone
    case Gone => Gone
  }

  function Next(s: State, e: Event): State
    requires Enabled(s, e)
  {
    match e
    case Call => s.(threads := s.threads + [Asking], clock := s.clock + 1)
    case Throw(t) => s.(threads := s.threads[t := Dying], thrown := true, clock := s.clock + 1)
    case Step(t, callShim) =>
      var pc := s.threads[t];
      State(
        pc.Asking? || (s.requested && !pc.Clearing?),
        pc.Claiming? || pc.Reclaiming? || (s.slot && !pc.Releasing? && !pc.Dying?),
        pc.EnteringShim? || (s.shimBusy && !pc.LeavingShim?),
        s.threads[t := PcNext(s, pc, callShim)],
        s.clock + 1,
        if pc.Asking? then s.clock else s.lastRequest,
        if pc.Starting? then s.clock else s.lastPass,
        s.dropped || (pc.EnteringShim? && s.shimBusy),
        s.thrown)
  }

  predicate SameFlags(s: State, u: State) {
    s.requested == u.requested && s.slot == u.slot && s.shimBusy == u.shimBusy && s.threads == u.threads
  }

  /** The history decides nothing. */
  lemma HistoryIsHistory(s: State, u: State, e: Event)
    requires SameFlags(s, u) && Enabled(s, e)
    ensures Enabled(u, e) && SameFlags(Next(s, e), Next(u, e))
  {
  }

  ghost predicate Run(s: State, es: seq<Event>, t: State)
    decreases |es|
  {
    if es == [] then s == t else Enabled(s, es[0]) && Run(Next(s, es[0]), es[1..], t)
  }

  lemma {:induction false} RunThen(s: State, es: seq<Event>, t: State, e: Event)
    requires Run(s, es, t) && Enabled(t, e)
    ensures Run(s, es + [e], Next(t, e))
    decreases |es|
  {
    if es == [] {
      assert ([] + [e])[1..] == [];
    } else {
      RunThen(Next(s, es[0]), es[1..], t, e);
      assert (es + [e])[1..] == es[1..] + [e];
    }
  }

  /** One thread at most owns the slot, and the slot says whether one does. */
  ghost predicate OneWorker(s: State) {
    && (forall i, j :: 0 <= i < j < |s.threads| ==> !(Holds(s.threads[i]) && Holds(s.threads[j])))
    && (s.slot <==> exists i :: 0 <= i < |s.threads| && Holds(s.threads[i]))
  }

  /** The shim is busy exactly while the worker is inside it, so it never drops a call. */
  ghost predicate ShimFree(s: State) {
    && (s.shimBusy ==> exists i :: 0 <= i < |s.threads| && InsideShim(s.threads[i]))
    && !s.dropped
  }

  /** A set flag has somebody to see it, unless a worker threw. */
  ghost predicate SomeoneLooks(s: State) {
    s.requested && !s.thrown ==> exists i :: 0 <= i < |s.threads| && WillLook(s.threads[i])
  }

  /** A request no pass has followed yet is still flagged, or its pass is about to start. */
  ghost predicate Unserved(s: State) {
    && s.lastRequest < s.clock && s.lastPass < s.clock
    && (s.lastPass <= s.lastRequest && 0 < s.lastRequest ==>
          s.requested || exists i :: 0 <= i < |s.threads| && s.threads[i].Starting?)
  }

  ghost predicate NoDying(s: State) {
    !s.thrown ==> forall i :: 0 <= i < |s.threads| ==> !s.threads[i].Dying?
  }

  ghost predicate Inv(s: State) {
    OneWorker(s) && ShimFree(s) && SomeoneLooks(s) && Unserved(s) && NoDying(s)
  }

  lemma StepKeepsOneWorker(s: State, e: Event)
    requires OneWorker(s) && Enabled(s, e)
    ensures OneWorker(Next(s, e))
  {
    var n := Next(s, e);
    match e {
      case Call =>
        assert n.slot ==> exists i :: 0 <= i < |s.threads| && Holds(s.threads[i]) && n.threads[i] == s.threads[i];
      case Throw(t) =>
        assert Holds(s.threads[t]) && Holds(n.threads[t]);
      case Step(t, _) =>
        if Holds(n.threads[t]) {
          assert !Holds(s.threads[t]) ==> !s.slot;
        } else if n.slot {
          var i :| 0 <= i < |s.threads| && Holds(s.threads[i]);
          assert n.threads[i] == s.threads[i];
        }
    }
  }

  lemma StepKeepsShimFree(s: State, e: Event)
    requires OneWorker(s) && ShimFree(s) && Enabled(s, e)
    ensures ShimFree(Next(s, e))
  {
    var n := Next(s, e);
    if s.shimBusy {
      var i :| 0 <= i < |s.threads| && InsideShim(s.threads[i]);
      assert Holds(s.threads[i]);
      if !e.Call? && e.t != i {
        assert n.threads[i] == s.threads[i];
      } else if !e.Call? {
        assert n.shimBusy ==> InsideShim(n.threads[i]);
      } else {
        assert n.threads[i] == s.threads[i];
      }
    } else if n.shimBusy {
      assert InsideShim(n.threads[e.t]);
    }
  }

  lemma StepKeepsSomeoneLooks(s: State, e: Event)
    requires OneWorker(s) && SomeoneLooks(s) && NoDying(s) && Enabled(s, e)
    ensures SomeoneLooks(Next(s, e))
  {
    var n := Next(s, e);
    if n.requested && !n.thrown {
      if e.Step? && WillLook(n.threads[e.t]) {
      } else if e.Step? && (s.threads[e.t].Claiming? || s.threads[e.t].Reclaiming?) {
        // The slot was taken: its owner is another thread, and has not thrown.
        var i :| 0 <= i < |s.threads| && Holds(s.threads[i]);
        assert n.threads[i] == s.threads[i] && WillLook(n.threads[i]);
      } else {
        var i :| 0 <= i < |s.threads| && WillLook(s.threads[i]);
        assert n.threads[i] == s.threads[i] && WillLook(n.threads[i]);
      }
    }
  }

  lemma StepKeepsUnserved(s: State, e: Event)
    requires Unserved(s) && Enabled(s, e)
    ensures Unserved(Next(s, e))
  {
    var n := Next(s, e);
    if n.lastPass <= n.lastRequest && 0 < n.lastRequest && !n.requested {
      if e.Step? && s.threads[e.t].Clearing? {
        assert n.threads[e.t].Starting?;
      } else {
        var i :| 0 <= i < |s.threads| && s.threads[i].Starting?;
        assert n.threads[i] == s.threads[i];
      }
    }
  }

  lemma StepKeepsInv(s: State, e: Event)
    requires Inv(s) && Enabled(s, e)
    ensures Inv(Next(s, e))
  {
    StepKeepsOneWorker(s, e);
    StepKeepsShimFree(s, e);
    StepKeepsSomeoneLooks(s, e);
    StepKeepsUnserved(s, e);
  }

  lemma {:induction false} RunKeepsInv(s: State, es: seq<Event>, t: State)
    requires Inv(s) && Run(s, es, t)
    ensures Inv(t)
    decreases |es|
  {
    if es != [] {
      StepKeepsInv(s, es[0]);
      RunKeepsInv(Next(s, es[0]), es[1..], t);
    }
  }

  // ---------------------------------------------------------------------------------
  // Main results
  // ---------------------------------------------------------------------------------

  ghost predicate Quiet(s: State) {
    forall i :: 0 <= i < |s.threads| ==> s.threads[i].Gone?
  }

  /** At most one worker at any time, throws included, and the shim never drops its call. */
  lemma OneWorkerAndNoDrop(es: seq<Event>, t: State, i: nat, j: nat)
    requires Run(INITIAL, es, t)
    ensures i < |t.threads| && j < |t.threads| && Holds(t.threads[i]) && Holds(t.threads[j]) ==> i == j
    ensures !t.dropped
  {
    RunKeepsInv(INITIAL, es, t);
  }

  /** A worker that throws may leave the request it was serving behind. */
  lemma ThrowLosesRequest() returns (es: seq<Event>, t: State)
    ensures Run(INITIAL, es, t) && Quiet(t)
    ensures t.requested && t.lastPass < t.lastRequest
  {
    es := [Call, Step(0, true), Step(0, true), Step(0, true), Throw(0), Step(0, true)];
    var s1 := Next(INITIAL, es[0]);
    var s2 := Next(s1, es[1]);
    var s3 := Next(s2, es[2]);
    var s4 := Next(s3, es[3]);
    var s5 := Next(s4, es[4]);
    t := Next(s5, es[5]);
    assert Run(s5, es[5..], t);
    assert Run(s4, es[4..], t);
    assert Run(s3, es[3..], t);
    assert Run(s2, es[2..], t);
    assert Run(s1, es[1..], t);
  }

  // ---------------------------------------------------------------------------------
  // Progress: without new requests the threads run out of steps
  // ---------------------------------------------------------------------------------

  /** Steps a thread has left when no new request comes; more while the flag is set. */
  function Weight(requested: bool, pc: Pc): nat {
    match pc
    case Gone => 0
    case Dying => 1
    case Rechecking => if requested then 31 else 2
    case Releasing => if requested then 32 else 3
    case Looking => if requested then 24 else 4
    case Settling => if requested then 23 else 13
    case Clearing => if requested then 22 else 12
    case Starting => if requested then 33 else 11
    case InPass => if requested then 32 else 10
    case EnteringShim => if requested then 31 else 9
    case InShim => if requested then 30 else 8
    case LeavingShim => if requested then 29 else 7
    case Finishing => if requested then 28 else 6
    case Reclaiming => if requested then 30 else 20
    case Claiming => if requested then 34 else 20
    case Asking => if requested then 40 else 20
  }

  function Measure(requested: bool, threads: seq<Pc>): nat {
    if threads == [] then 0 else Weight(requested, threads[0]) + Measure(requested, threads[1..])
  }

  lemma {:induction false} MeasureOf(requested: bool, before: seq<Pc>, pc: Pc, after: seq<Pc>)
    ensures Measure(requested, before + [pc] + after)
         == Measure(requested, before) + Weight(requested, pc) + Measure(requested, after)
    decreases |before|
  {
    if before == [] {
      assert (before + [pc] + after)[1..] == after;
    } else {
      MeasureOf(requested, before[1..], pc, after);
      assert (before + [pc] + after)[1..] == before[1..] + [pc] + after;
    }
  }

  lemma {:induction false} ClearingLightens(threads: seq<Pc>)
    ensures Measure(false, threads) <= Measure(true, threads)
  {
    if threads != [] {
      ClearingLightens(threads[1..]);
    }
  }

  /** Every step but a new request brings the whole system nearer to quiet. */
  lemma StepsRunOut(s: State, e: Event)
    requires Enabled(s, e) && !e.Call?
    requires !s.threads[e.t].Asking?
    ensures Measure(Next(s, e).requested, Next(s, e).threads) < Measure(s.requested, s.threads)
  {
    var n := Next(s, e);
    var before, after := s.threads[..e.t], s.threads[e.t + 1..];
    assert s.threads == before + [s.threads[e.t]] + after;
    assert n.threads == before + [n.threads[e.t]] + after;
    MeasureOf(s.requested, before, s.threads[e.t], after);
    MeasureOf(n.requested, before, n.threads[e.t], after);
    if s.requested && !n.requested {
      ClearingLightens(before);
      ClearingLightens(after);
    }
  }

  ghost predicate NoNewRequest(s: State, es: seq<Event>)
    decreases |es|
  {
    es == [] || (
      && !es[0].Call? && Enabled(s, es[0]) && !s.threads[es[0].t].Asking?
      && NoNewRequest(Next(s, es[0]), es[1..]))
  }

  /** A step of the code that asks for nothing new and throws nothing. */
  predicate Calm(s: State, e: Event) {
    e.Step? && Enabled(s, e) && !s.threads[e.t].Asking?
  }

  ghost predicate AllAskOrGone(s: State) {
    forall i :: 0 <= i < |s.threads| ==> s.threads[i].Gone? || s.threads[i].Asking?
  }

  /** So once requests stop, a run has a bounded number of steps left, and one can be taken until all that is left is
      threads about to ask. */
  lemma {:induction false} SettlesDown(s: State, es: seq<Event>, t: State)
    requires Run(s, es, t) && NoNewRequest(s, es)
    ensures |es| + Measure(t.requested, t.threads) <= Measure(s.requested, s.threads)
    ensures (exists i :: Calm(t, Step(i, true))) || AllAskOrGone(t)
    decreases |es|
  {
    if es != [] {
      StepsRunOut(s, es[0]);
      SettlesDown(Next(s, es[0]), es[1..], t);
    } else if i :| 0 <= i < |t.threads| && !t.threads[i].Gone? && !t.threads[i].Asking? {
      assert Calm(t, Step(i, true));
    }
  }

  // ---------------------------------------------------------------------------------
  // Which requests can get lost
  // ---------------------------------------------------------------------------------

  ghost predicate CalmRun(s: State, es: seq<Event>, t: State)
    decreases |es|
  {
    if es == [] then s == t else Calm(s, es[0]) && CalmRun(Next(s, es[0]), es[1..], t)
  }

  ghost predicate NobodyAsks(s: State) {
    forall i :: 0 <= i < |s.threads| ==> !s.threads[i].Asking?
  }

  ghost predicate SomeoneDies(s: State) {
    exists i :: 0 <= i < |s.threads| && s.threads[i].Dying?
  }

  ghost predicate SomeoneWillLook(s: State) {
    exists i :: 0 <= i < |s.threads| && WillLook(s.threads[i])
  }

  /** All is done and a request is left over. */
  ghost predicate Lost(t: State) { Quiet(t) && t.requested }

  /** Somebody will look, and nobody dies with the slot in hand. */
  ghost predicate Watched(s: State) {
    OneWorker(s) && !SomeoneDies(s) && (s.requested ==> SomeoneWillLook(s))
  }

  lemma CalmKeepsWatched(s: State, e: Event)
    requires Watched(s) && Calm(s, e)
    ensures Watched(Next(s, e))
  {
    StepKeepsOneWorker(s, e);
    var n := Next(s, e);
    assert !n.threads[e.t].Dying?;
    if n.requested && !WillLook(n.threads[e.t]) {
      // It was turned away by the slot's owner, and that is somebody.
      var i :| 0 <= i < |s.threads| && Holds(s.threads[i]);
      assert n.threads[i] == s.threads[i] && WillLook(n.threads[i]);
    }
  }

  lemma {:induction false} WatchedIsServed(s: State, es: seq<Event>, t: State)
    requires Watched(s) && CalmRun(s, es, t) && Quiet(t)
    ensures !t.requested
    decreases |es|
  {
    if es != [] {
      CalmKeepsWatched(s, es[0]);
      WatchedIsServed(Next(s, es[0]), es[1..], t);
    }
  }

  lemma CalmStepDown(s: State, e: Event)
    requires NobodyAsks(s) && Calm(s, e)
    ensures NobodyAsks(Next(s, e))
    ensures Measure(Next(s, e).requested, Next(s, e).threads) < Measure(s.requested, s.threads)
  {
    StepsRunOut(s, e);
  }

  /** A calm run to the end can always be had. */
  lemma {:induction false} QuietRun(s: State) returns (es: seq<Event>, t: State)
    requires NobodyAsks(s)
    ensures CalmRun(s, es, t) && Quiet(t)
    decreases Measure(s.requested, s.threads)
  {
    if Quiet(s) {
      es, t := [], s;
    } else {
      var i :| 0 <= i < |s.threads| && !s.threads[i].Gone?;
      var e := Step(i, false);
      CalmStepDown(s, e);
      es, t := QuietRun(Next(s, e));
      es := [e] + es;
    }
  }

  /** While a worker dies with the slot, those who look for it come away empty-handed. */
  lemma TurnedAway(s: State, i: nat)
    requires OneWorker(s) && SomeoneDies(s) && s.requested && i < |s.threads| && WillLook(s.threads[i])
    ensures var n := Next(s, Step(i, false)); Calm(s, Step(i, false)) && n.requested && SomeoneDies(n)
  {
    var d :| 0 <= d < |s.threads| && s.threads[d].Dying?;
    assert Holds(s.threads[d]);
    assert Next(s, Step(i, false)).threads[d].Dying?;
  }

  /** A schedule that loses the request: everyone else first, then the dying worker. */
  lemma {:induction false} LosingRun(s: State) returns (es: seq<Event>, t: State)
    requires OneWorker(s) && NobodyAsks(s) && s.requested && (SomeoneDies(s) || !SomeoneWillLook(s))
    ensures CalmRun(s, es, t) && Lost(t)
    decreases Measure(s.requested, s.threads)
  {
    if Quiet(s) {
      es, t := [], s;
    } else {
      var i: nat;
      if SomeoneWillLook(s) {
        i :| 0 <= i < |s.threads| && WillLook(s.threads[i]);
        TurnedAway(s, i);
      } else {
        i :| 0 <= i < |s.threads| && !s.threads[i].Gone?;
        NobodyTurnsBack(s, i);
      }
      var e := Step(i, false);
      StepKeepsOneWorker(s, e);
      CalmStepDown(s, e);
      es, t := LosingRun(Next(s, e));
      es := [e] + es;
    }
  }

  lemma NobodyTurnsBack(s: State, i: nat)
    requires NobodyAsks(s) && s.requested && !SomeoneWillLook(s) && i < |s.threads| && !s.threads[i].Gone?
    ensures var n := Next(s, Step(i, false)); Calm(s, Step(i, false)) && n.requested && !SomeoneWillLook(n)
  {
    assert s.threads[i].Dying?;
  }

  /** Some way of scheduling the rest leaves a request over. */
  ghost predicate MayLose(s: State) { exists es, t :: CalmRun(s, es, t) && Lost(t) }

  /** Every way does. */
  ghost predicate MustLose(s: State) { forall es, t :: CalmRun(s, es, t) && Quiet(t) ==> Lost(t) }

  /** Left to itself the service may lose a request exactly if one is flagged and a worker is dying with the slot or
      nobody is going to look. */
  lemma LostIff(s: State)
    requires OneWorker(s) && NobodyAsks(s)
    ensures MayLose(s) <==> s.requested && (SomeoneDies(s) || !SomeoneWillLook(s))
  {
    if MayLose(s) {
      var es, t :| CalmRun(s, es, t) && Lost(t);
      FlagNotSet(s, es, t);
      if !SomeoneDies(s) && SomeoneWillLook(s) {
        WatchedIsServed(s, es, t);
      }
    }
    if s.requested && (SomeoneDies(s) || !SomeoneWillLook(s)) {
      var es, t := LosingRun(s);
      LosesBy(s, es, t);
    }
  }

  lemma LosesBy(s: State, es: seq<Event>, t: State)
    requires CalmRun(s, es, t) && Lost(t)
    ensures MayLose(s)
  {
  }

  lemma ServesBy(s: State, es: seq<Event>, t: State)
    requires CalmRun(s, es, t) && Quiet(t) && !t.requested
    ensures !MustLose(s)
  {
  }

  /** Calm steps set no flag. */
  lemma {:induction false} FlagNotSet(s: State, es: seq<Event>, t: State)
    requires CalmRun(s, es, t) && t.requested
    ensures s.requested
    decreases |es|
  {
    if es != [] {
      FlagNotSet(Next(s, es[0]), es[1..], t);
    }
  }

  lemma {:induction false} UnwatchedStaysLost(s: State, es: seq<Event>, t: State)
    requires NobodyAsks(s) && s.requested && !SomeoneWillLook(s) && CalmRun(s, es, t)
    ensures t.requested
    decreases |es|
  {
    if es != [] {
      NobodyTurnsBackAt(s, es[0]);
      CalmStepDown(s, es[0]);
      UnwatchedStaysLost(Next(s, es[0]), es[1..], t);
    }
  }

  lemma NobodyTurnsBackAt(s: State, e: Event)
    requires NobodyAsks(s) && s.requested && !SomeoneWillLook(s) && Calm(s, e)
    ensures Next(s, e).requested && !SomeoneWillLook(Next(s, e))
  {
    assert s.threads[e.t].Dying?;
  }

  /** A schedule that serves it, if there is somebody to look: the dying worker first. */
  lemma ServingRun(s: State) returns (es: seq<Event>, t: State)
    requires OneWorker(s) && NobodyAsks(s) && (s.requested ==> SomeoneWillLook(s))
    ensures CalmRun(s, es, t) && Quiet(t) && !t.requested
  {
    if d :| 0 <= d < |s.threads| && s.threads[d].Dying? {
      var e := Step(d, false);
      var n := Next(s, e);
      StepKeepsOneWorker(s, e);
      CalmStepDown(s, e);
      DeathIsWatched(s, d);
      es, t := QuietRun(n);
      WatchedIsServed(n, es, t);
      es := [e] + es;
    } else {
      es, t := QuietRun(s);
      WatchedIsServed(s, es, t);
    }
  }

  lemma DeathIsWatched(s: State, d: nat)
    requires OneWorker(s) && d < |s.threads| && s.threads[d].Dying? && (s.requested ==> SomeoneWillLook(s))
    ensures Watched(Next(s, Step(d, false)))
  {
    var n := Next(s, Step(d, false));
    StepKeepsOneWorker(s, Step(d, false));
    assert Holds(s.threads[d]);
    forall i | 0 <= i < |n.threads|
      ensures !n.threads[i].Dying?
    {
      assert s.threads[i].Dying? ==> Holds(s.threads[i]);
    }
    if s.requested {
      var i :| 0 <= i < |s.threads| && WillLook(s.threads[i]);
      assert n.threads[i] == s.threads[i];
    }
  }

  /** And it loses it however the threads are scheduled exactly if nobody is going to look. */
  lemma LostForSureIff(s: State)
    requires OneWorker(s) && NobodyAsks(s)
    ensures MustLose(s) <==> s.requested && !SomeoneWillLook(s)
  {
    if s.requested && !SomeoneWillLook(s) {
      forall es, t | CalmRun(s, es, t) && Quiet(t)
        ensures Lost(t)
      {
        UnwatchedStaysLost(s, es, t);
      }
    } else {
      var es, t := ServingRun(s);
      ServesBy(s, es, t);
    }
  }

  /** So a throw may cost a request exactly if one is flagged when it happens. */
  lemma ThrowLosesIff(s: State, i: nat)
    requires OneWorker(s) && NobodyAsks(s) && Enabled(s, Throw(i))
    ensures MayLose(Next(s, Throw(i))) <==> s.requested
  {
    var n := Next(s, Throw(i));
    StepKeepsOneWorker(s, Throw(i));
    assert n.threads[i].Dying?;
    LostIff(n);
  }

  ghost predicate IsThrow(e: Event) { e.Throw? }

  lemma {:induction false} OnlyThrowsThrow(s: State, es: seq<Event>, t: State)
    requires Run(s, es, t) && !s.thrown
    requires forall i :: 0 <= i < |es| ==> !IsThrow(es[i])
    ensures !t.thrown
    decreases |es|
  {
    if es != [] {
      assert !IsThrow(es[0]);
      OnlyThrowsThrow(Next(s, es[0]), es[1..], t);
    }
  }

  /** Without a throw there is never a request to lose: once every thread is done none is left over, and a pass started
      after the last one. */
  lemma NoRequestLost(es: seq<Event>, t: State)
    requires Run(INITIAL, es, t) && NobodyAsks(t)
    requires forall i :: 0 <= i < |es| ==> !IsThrow(es[i])
    ensures !MayLose(t)
    ensures Quiet(t) ==> !t.requested && !t.slot
    ensures Quiet(t) && 0 < t.lastRequest ==> t.lastRequest < t.lastPass
  {
    RunKeepsInv(INITIAL, es, t);
    OnlyThrowsThrow(INITIAL, es, t);
    if Quiet(t) && t.requested {
      LosesBy(t, [], t);
    }
    LostIff(t);
  }
}

/** rebindNode and its worker as they are written, with other threads acting between any two accesses. */
module RebindService {
  import opened RebindProtocol

  class Service {
    var rebindRequested: bool
    var rebinding: bool
    var shimRebinding: bool
    var threads: seq<Pc>
    ghost var clock: nat
    ghost var lastRequest: nat
    ghost var lastPass: nat
    ghost var dropped: bool
    ghost var thrown: bool
    ghost var trace: seq<Event>

    constructor ()
      ensures Valid() && View() == INITIAL
    {
      rebindRequested, rebinding, shimRebinding, threads := false, false, false, [];
      clock, lastRequest, lastPass, dropped, thrown := 1, 0, 0, false, false;
      trace := [];
    }

    ghost function View(): State
      reads this
    {
      State(rebindRequested, rebinding, shimRebinding, threads, clock, lastRequest, lastPass, dropped, thrown)
    }

    /** The fields of the code itself, under a history of nothing. */
    function Flags(): State
      reads this
    {
      State(rebindRequested, rebinding, shimRebinding, threads, 0, 0, 0, false, false)
    }

    /** All that happened is a run of the protocol. */
    ghost predicate Valid()
      reads this
    {
      Run(INITIAL, trace, View())
    }

    ghost predicate At(t: nat, pc: Pc)
      reads this
    {
      t < |threads| && threads[t] == pc
    }

    /** Flags and threads are where `e` takes them from `v`; the history follows. */
    ghost method Record(v: State, e: Event)
      requires Run(INITIAL, trace, v) && Enabled(v, e)
      requires SameFlags(Flags(), Next(v, e))
      modifies this`clock, this`lastRequest, this`lastPass, this`dropped, this`thrown, this`trace
      ensures Valid() && View() == Next(v, e)
    {
      RunThen(INITIAL, trace, v, e);
      var n := Next(v, e);
      clock, lastRequest, lastPass, dropped, thrown := n.clock, n.lastRequest, n.lastPass, n.dropped, n.thrown;
      trace := trace + [e];
    }

    /** The k-th part of a script. */
    static function Part(script: seq<seq<Event>>, k: nat): (es: seq<Event>)
      ensures script == [] ==> es == []
    {
      if k < |script| then script[k] else []
    }

    /** What other threads do meanwhile; what cannot happen is skipped. */
    method Others(me: nat, script: seq<Event>)
      requires Valid() && me < |threads|
      modifies this
      ensures Valid() && |threads| >= old(|threads|) && threads[me] == old(threads[me])
      ensures script == [] ==> rebindRequested == old(rebindRequested)
    {
      for i := 0 to |script|
        invariant Valid() && |threads| >= old(|threads|) && threads[me] == old(threads[me])
        invariant script == [] ==> rebindRequested == old(rebindRequested)
      {
        if script[i].Call? || script[i].t != me {
          Other(script[i]);
        }
      }
    }

    method Other(e: Event)
      requires Valid()
      modifies this
      ensures Valid() && |threads| >= old(|threads|)
      ensures forall i :: 0 <= i < old(|threads|) && (e.Call? || e.t != i) ==> threads[i] == old(threads[i])
    {
      ghost var v := View();
      if Enabled(Flags(), e) {
        HistoryIsHistory(Flags(), v, e);
        var n := Next(Flags(), e);
        rebindRequested, rebinding, shimRebinding, threads := n.requested, n.slot, n.shimBusy, n.threads;
        Record(v, e);
      }
    }

    /** compareAndSet(false, true) on the slot. */
    method TakeSlot(t: nat) returns (won: bool)
      requires Valid() && (At(t, Claiming) || At(t, Reclaiming))
      modifies this
      ensures Valid() && |threads| == old(|threads|) && At(t, if won then Looking else Gone)
      ensures rebindRequested == old(rebindRequested)
    {
      ghost var v := View();
      won := !rebinding;
      rebinding := true;
      threads := threads[t := if won then Looking else Gone];
      Record(v, Step(t, false));
    }

    method ReleaseSlot(t: nat)
      requires Valid() && (At(t, Releasing) || At(t, Dying))
      modifies this
      ensures Valid() && |threads| == old(|threads|) && At(t, if old(threads[t]).Dying? then Gone else Rechecking)
      ensures rebindRequested == old(rebindRequested)
    {
      ghost var v := View();
      rebinding := false;
      threads := threads[t := if threads[t].Dying? then Gone else Rechecking];
      Record(v, Step(t, false));
    }

    /** A step that touches no flag. */
    method Pass(t: nat, pc: Pc, ghost callShim: bool)
      requires Valid() && t < |threads|
      requires match threads[t]
               case Settling => pc.Clearing?
               case Starting => pc.InPass?
               case InPass => pc == if callShim then EnteringShim else Finishing
               case InShim => pc.LeavingShim?
               case Finishing => pc.Looking?
               case _ => false
      modifies this
      ensures Valid() && |threads| == old(|threads|) && At(t, pc) && rebindRequested == old(rebindRequested)
    {
      ghost var v := View();
      threads := threads[t := pc];
      Record(v, Step(t, callShim));
    }

    /** The sleep or the pass throws. */
    method Throw(t: nat)
      requires Valid() && (At(t, Settling) || At(t, InPass) || At(t, Finishing))
      modifies this
      ensures Valid() && |threads| == old(|threads|) && At(t, Dying)
    {
      ghost var v := View();
      threads := threads[t := Dying];
      Record(v, Event.Throw(t));
    }

    /** The flag read by the worker: at the top of its loop, or after the release. */
    method Look(t: nat) returns (asked: bool)
      requires Valid() && (At(t, Looking) || At(t, Rechecking))
      modifies this
      ensures Valid() && |threads| == old(|threads|)
      ensures asked == old(rebindRequested) && rebindRequested == old(rebindRequested)
      ensures At(t, if old(threads[t]).Looking? then (if asked then Settling else Releasing)
                    else if asked then Reclaiming else Gone)
    {
      ghost var v := View();
      asked := rebindRequested;
      threads := threads[t := if threads[t].Looking? then (if asked then Settling else Releasing)
                              else if asked then Reclaiming else Gone];
      Record(v, Step(t, false));
    }

    /** network_changed, as far as REBINDING goes. */
    method NetworkChanged(t: nat, meanwhile: seq<Event>)
      requires Valid() && At(t, EnteringShim)
      modifies this
      ensures Valid() && |threads| >= old(|threads|) && At(t, Finishing)
      ensures meanwhile == [] ==> rebindRequested == old(rebindRequested)
    {
      ghost var v := View();
      if shimRebinding {
        threads := threads[t := Finishing];
        Record(v, Step(t, true));
        return;
      }
      shimRebinding := true;
      threads := threads[t := InShim];
      Record(v, Step(t, true));
      Others(t, meanwhile);
      Pass(t, LeavingShim, true);
      LeaveShim(t);
    }

    method LeaveShim(t: nat)
      requires Valid() && At(t, LeavingShim)
      modifies this
      ensures Valid() && |threads| == old(|threads|) && At(t, Finishing) && rebindRequested == old(rebindRequested)
    {
      ghost var v := View();
      shimRebinding := false;
      threads := threads[t := Finishing];
      Record(v, Step(t, true));
    }

    /** rebindOnce around its call of the shim, which it may do without. */
    method RebindOnce(t: nat, callShim: bool, meanwhile: seq<seq<Event>>)
      requires Valid() && At(t, InPass)
      modifies this
      ensures Valid() && |threads| >= old(|threads|) && At(t, Finishing)
      ensures meanwhile == [] ==> rebindRequested == old(rebindRequested)
    {
      if callShim {
        Pass(t, EnteringShim, true);
        Others(t, Part(meanwhile, 0));
        NetworkChanged(t, Part(meanwhile, 1));
      } else {
        Pass(t, Finishing, false);
      }
    }

    /** The flag taken back, before the pass it asked for. */
    method ClearRequest(t: nat)
      requires Valid() && At(t, Clearing)
      modifies this
      ensures Valid() && |threads| == old(|threads|) && At(t, Starting) && !rebindRequested
    {
      ghost var v := View();
      rebindRequested := false;
      threads := threads[t := Starting];
      Record(v, Step(t, false));
    }

    /** One round of a worker that found the flag set; false if it threw. */
    method ServeOnce(t: nat, meanwhile: seq<seq<Event>>, throws: bool, callShim: bool) returns (ok: bool)
      requires Valid() && At(t, Settling)
      modifies this
      ensures Valid() && |threads| >= old(|threads|)
      ensures At(t, if ok then Looking else Dying)
      ensures meanwhile == [] && ok ==> !rebindRequested
    {
      Others(t, Part(meanwhile, 2));
      if throws {
        Throw(t);
        return false;
      }
      Pass(t, Clearing, false);
      Others(t, Part(meanwhile, 3));
      ClearRequest(t);
      Others(t, Part(meanwhile, 4));
      Pass(t, InPass, false);
      RebindOnce(t, callShim, meanwhile);
      Others(t, Part(meanwhile, 5));
      Pass(t, Looking, false);
      ok := true;
    }

    /** The slot given up and, if a request came in between, tried for again; false if the worker is through. */
    method ReleaseAndRecheck(t: nat, meanwhile: seq<seq<Event>>) returns (again: bool)
      requires Valid() && At(t, Releasing)
      modifies this
      ensures Valid() && |threads| >= old(|threads|)
      ensures At(t, if again then Looking else Gone)
      ensures meanwhile == [] && !old(rebindRequested) ==> !again
    {
      Others(t, Part(meanwhile, 2));
      ReleaseSlot(t);
      Others(t, Part(meanwhile, 3));
      again := Look(t);
      if again {
        Others(t, Part(meanwhile, 4));
        again := TakeSlot(t);
      }
    }

    /** The worker: what the thread started by rebindNode runs, with what others do in each of its rounds. */
    method Worker(t: nat, rounds: seq<seq<seq<Event>>>, throws: nat -> bool, callShim: nat -> bool)
      requires Valid() && At(t, Looking)
      modifies this
      ensures Valid() && |threads| >= old(|threads|) && At(t, Gone)
    {
      var k := 0;
      while true
        invariant Valid() && |threads| >= old(|threads|) && At(t, Looking)
        decreases if k < |rounds| then |rounds| - k else 0, rebindRequested
      {
        var meanwhile := if k < |rounds| then rounds[k] else [];
        var asked := Look(t);
        if asked {
          var ok := ServeOnce(t, meanwhile, throws(k), callShim(k));
          if !ok {
            ReleaseSlot(t);
            return;
          }
        } else {
          var again := ReleaseAndRecheck(t, meanwhile);
          if !again {
            return;
          }
        }
        k := k + 1;
      }
    }

    /** A callback's call of rebindNode, on a thread of its own, with the worker it may start. */
    method RebindNode(meanwhile: seq<seq<Event>>, rounds: seq<seq<seq<Event>>>,
                      throws: nat -> bool, callShim: nat -> bool)
        returns (t: nat)
      requires Valid()
      modifies this
      ensures Valid() && t == old(|threads|) && At(t, Gone)
    {
      t := |threads|;
      ghost var v := View();
      threads := threads + [Asking];
      Record(v, Call);
      Others(t, Part(meanwhile, 0));
      Ask(t);
      Others(t, Part(meanwhile, 1));
      var won := TakeSlot(t);
      if won {
        Worker(t, rounds, throws, callShim);
      }
    }

    method Ask(t: nat)
      requires Valid() && At(t, Asking)
      modifies this
      ensures Valid() && |threads| == old(|threads|) && At(t, Claiming) && rebindRequested
    {
      ghost var v := View();
      rebindRequested := true;
      threads := threads[t := Claiming];
      Record(v, Step(t, false));
    }
  }

  /** Calls one after the other, each with whatever others do meanwhile: unless a thread threw, nothing is left over
      once all are done. */
  method Serve(calls: seq<seq<seq<seq<Event>>>>, callShim: nat -> bool) returns (s: Service)
    ensures fresh(s) && Inv(s.View())
    ensures Quiet(s.View()) && !s.thrown ==> !s.rebindRequested && !s.rebinding
  {
    s := new Service();
    for i := 0 to |calls|
      invariant fresh(s) && s.Valid()
    {
      var _ := s.RebindNode([], calls[i], _ => false, callShim);
    }
    RunKeepsInv(INITIAL, s.trace, s.View());
  }
}
