/** What the engine takes as one step, a swap or a join of its pump, is a run of the pump with that outcome. */
module PumpEngine {
  import opened Bytes
  import E = EngineProtocol
  import P = PumpProtocol

  /** The fds that reader or writer may still touch. */
  function ThreadsOn(s: P.State): set<nat> {
    if P.ThreadsDone(s.io) then {} else {s.io.fd}
  }

  predicate OfOneCall(es: seq<P.Event>) {
    forall i :: 0 <= i < |es| ==> SameCall(es[i])
  }

  predicate SameCall(e: P.Event) {
    e != P.Control(P.BeginSwap) && e != P.Control(P.BeginStop)
  }

  // ---------------------------------------------------------------------------------
  // A spawn
  // ---------------------------------------------------------------------------------

  /** Before the first swap or stop: the first generation, on the fd it was spawned on. */
  predicate FirstCall(s: P.State, fd: nat) {
    && s.io.fd == fd && s.ctl.tunFd == fd
    && (if s.ctl.detached then s.ctl.at.CloseLast? || s.ctl.at.Ended? else s.ctl.at.SpawningBridge? || s.ctl.at.Idle?)
  }

  lemma StepOfFirstCall(s: P.State, e: P.Event, fd: nat)
    requires FirstCall(s, fd) && P.Enabled(s, e) && SameCall(e)
    ensures FirstCall(P.Next(s, e), fd)
  {
  }

  lemma {:induction false} RunOfFirstCall(s: P.State, es: seq<P.Event>, t: P.State, fd: nat)
    requires FirstCall(s, fd) && P.Run(s, es, t) && OfOneCall(es)
    ensures FirstCall(t, fd)
    decreases |es|
  {
    if es != [] {
      assert SameCall(es[0]);
      StepOfFirstCall(s, es[0], fd);
      RunOfFirstCall(P.Next(s, es[0]), es[1..], t, fd);
    }
  }

  /** Every run of the pump's spawn on from its first generation is the engine's step: with the bridge up, an engine on
      that fd; without it, abandoned threads and a dup to close. */
  lemma SpawnRefines(fd: nat, es: seq<P.Event>, t: P.State, c: E.Core, config: nat)
    requires P.Run(P.Initial(fd), es, t) && OfOneCall(es) && (t.ctl.at.Idle? || t.ctl.at.Ended?)
    ensures var outcome := if t.ctl.at.Idle? then E.Fine else E.Abandons;
      var (spawned, pc) := E.CoreNext(c, E.SpawningPump(config, fd), outcome);
      && ThreadsOn(t) <= {fd} <= spawned.fds.users
      && (t.ctl.at.Idle? ==> pc.Installing? && pc.engine.fd == fd && pc.engine.pump == Some(E.Pump(Some(t.io.fd))))
      && (t.ctl.at.Ended? ==> fd in spawned.fds.abandoned && pc == E.Closing(fd, E.Fail) && t.ctl.fds == {})
  {
    RunOfFirstCall(P.Initial(fd), es, t, fd);
    P.InvInitial(fd);
    P.RunKeepsInv(P.Initial(fd), es, t);
  }

  // ---------------------------------------------------------------------------------
  // A swap
  // ---------------------------------------------------------------------------------

  /** Where a swap from `old` to `new` can be, and whose dup is the engine's by then. */
  predicate OnSwap(h: P.Holder, oldFd: nat, newFd: nat) {
    if h.at.Idle? then h.tunFd == newFd
    else if h.at.CloseOld? then h.tunFd == newFd && h.at.oldFd == oldFd
    else
      && h.tunFd == oldFd
      && (|| h.at.FdLess?
          || P.Incoming(h.at) == Some(newFd)
          || ((P.HalfUp(h.at) || h.at.CloseNew?) && h.at.newFd == newFd))
  }

  lemma StepOnSwap(s: P.State, e: P.Event, oldFd: nat, newFd: nat)
    requires OnSwap(s.ctl, oldFd, newFd) && P.Enabled(s, e) && SameCall(e)
    ensures OnSwap(P.Next(s, e).ctl, oldFd, newFd)
  {
    if e == P.Control(P.Advance) {
      AdvanceOnSwap(s, oldFd, newFd);
    }
  }

  lemma AdvanceOnSwap(s: P.State, oldFd: nat, newFd: nat)
    requires OnSwap(s.ctl, oldFd, newFd) && P.ControlEnabled(s, P.Advance)
    ensures OnSwap(P.AdvanceNext(s).ctl, oldFd, newFd)
  {
  }

  lemma {:induction false} RunOnSwap(s: P.State, es: seq<P.Event>, t: P.State, oldFd: nat, newFd: nat)
    requires OnSwap(s.ctl, oldFd, newFd) && P.Run(s, es, t) && OfOneCall(es)
    ensures OnSwap(t.ctl, oldFd, newFd)
    decreases |es|
  {
    if es != [] {
      assert SameCall(es[0]);
      StepOnSwap(s, es[0], oldFd, newFd);
      RunOnSwap(P.Next(s, es[0]), es[1..], t, oldFd, newFd);
    }
  }

  /** What a swap that is over came to. */
  function SwapOutcome(t: P.State): E.Outcome {
    if t.ctl.at.Idle? then E.Fine else if t.ctl.detached then E.Abandons else E.Fails
  }

  /** Which threads are left, by outcome: the new generation's, none, or abandoned ones on the old fd. */
  lemma SwapLeaves(fd: nat, es: seq<P.Event>, s: P.State, more: seq<P.Event>, t: P.State)
    requires P.Run(P.Initial(fd), es, s) && s.ctl.at.ClearLive? && s.ctl.at.why.Swap?
    requires P.Run(s, more, t) && OfOneCall(more) && (t.ctl.at.Idle? || t.ctl.at.FdLess?)
    ensures ThreadsOn(t) <= match SwapOutcome(t)
                            case Fine => {s.ctl.at.why.newFd}
                            case Fails => {}
                            case Abandons => {s.io.fd}
    ensures t.ctl.fds == {if t.ctl.at.Idle? then s.ctl.at.why.newFd else s.io.fd}
    ensures s.ctl.fds == {s.io.fd, s.ctl.at.why.newFd} && s.io.fd != s.ctl.at.why.newFd
  {
    P.InvInitial(fd);
    P.RunKeepsInv(P.Initial(fd), es, s);
    P.RunKeepsDetachedFd(P.Initial(fd), es, s);
    RunOnSwap(s, more, t, s.io.fd, s.ctl.at.why.newFd);
    P.RunKeepsInv(s, more, t);
    P.RunKeepsDetachedFd(s, more, t);
    SwapEnd(s, t);
  }

  lemma SwapEnd(s: P.State, t: P.State)
    requires P.Ledger(s) && P.GenerationFd(s) && s.ctl.at.ClearLive? && s.ctl.at.why.Swap?
    requires P.Ledger(t) && P.GenerationFd(t) && P.Markers(t) && P.DetachedFd(t)
    requires OnSwap(t.ctl, s.io.fd, s.ctl.at.why.newFd) && (t.ctl.at.Idle? || t.ctl.at.FdLess?)
    ensures ThreadsOn(t) <= match SwapOutcome(t)
                            case Fine => {s.ctl.at.why.newFd}
                            case Fails => {}
                            case Abandons => {s.io.fd}
    ensures t.ctl.fds == {if t.ctl.at.Idle? then s.ctl.at.why.newFd else s.io.fd}
    ensures s.ctl.fds == {s.io.fd, s.ctl.at.why.newFd} && s.io.fd != s.ctl.at.why.newFd
  {
  }

  /** The engine's swap step: whom it counts on an fd after it, and which dup the call closes next. */
  lemma SwapStep(c: E.Core, config: nat, node: nat, oldFd: nat, newFd: nat, outcome: E.Outcome)
      returns (swapped: E.Core, pc: E.Pc)
    requires c.slot.Some? && c.slot.value.fd == oldFd && oldFd != newFd
    ensures (swapped, pc) == E.CoreNext(c, E.SwappingIo(config, node, newFd, E.Pump(Some(oldFd))), outcome)
    ensures swapped.fds.users == match outcome
                                 case Fine => c.fds.users - {oldFd} + {newFd}
                                 case Fails => c.fds.users - {oldFd}
                                 case Abandons => c.fds.users
    ensures pc == E.PuttingPump(config, node, newFd, E.Pump(if outcome.Fine? then Some(newFd) else None), outcome.Fine?)
    ensures E.CoreNext(swapped, pc, E.Fine).1 ==
      if outcome.Fine? then E.Closing(oldFd, E.Keep(node)) else E.Closing(newFd, E.Rebuild(config))
  {
    var next := E.CoreNext(c, E.SwappingIo(config, node, newFd, E.Pump(Some(oldFd))), outcome);
    swapped, pc := next.0, next.1;
  }

  /** Every run of the pump through a swap is the engine's step of that outcome: the threads left are users the engine
      counts, the old generation is one exactly if it was abandoned, and the dup closed is the one the call closes. */
  lemma SwapRefines(fd: nat, es: seq<P.Event>, s: P.State, more: seq<P.Event>, t: P.State,
                    c: E.Core, config: nat, node: nat)
      returns (swapped: E.Core, pc: E.Pc)
    requires P.Run(P.Initial(fd), es, s) && s.ctl.at.ClearLive? && s.ctl.at.why.Swap?
    requires P.Run(s, more, t) && OfOneCall(more) && (t.ctl.at.Idle? || t.ctl.at.FdLess?)
    requires c.slot.Some? && c.slot.value.fd == s.io.fd && s.io.fd in c.fds.users
    ensures (swapped, pc) ==
      E.CoreNext(c, E.SwappingIo(config, node, s.ctl.at.why.newFd, E.Pump(Some(s.io.fd))), SwapOutcome(t))
    ensures ThreadsOn(t) <= swapped.fds.users
    ensures s.io.fd in swapped.fds.users <==> SwapOutcome(t).Abandons?
    ensures pc.PuttingPump? && (pc.swapped <==> t.ctl.at.Idle?)
    ensures var closing := E.CoreNext(swapped, pc, E.Fine).1; closing.Closing? && t.ctl.fds == s.ctl.fds - {closing.fd}
  {
    SwapLeaves(fd, es, s, more, t);
    swapped, pc := SwapStep(c, config, node, s.io.fd, s.ctl.at.why.newFd, SwapOutcome(t));
    NeverAbandonedIdle(fd, es, s, more, t);
  }

  lemma NeverAbandonedIdle(fd: nat, es: seq<P.Event>, s: P.State, more: seq<P.Event>, t: P.State)
    requires P.Run(P.Initial(fd), es, s) && P.Run(s, more, t)
    ensures t.ctl.at.Idle? ==> !t.ctl.detached
  {
    P.InvInitial(fd);
    P.RunKeepsInv(P.Initial(fd), es, s);
    P.RunKeepsInv(s, more, t);
  }

  // ---------------------------------------------------------------------------------
  // A join
  // ---------------------------------------------------------------------------------

  predicate Stopping(c: P.ControlPc) {
    || ((c.ClearLive? || c.WakeReader? || c.SendSentinel? || c.Await?) && c.why.Shutdown?)
    || c.CloseLast? || c.Ended?
  }

  lemma StepOnStop(s: P.State, e: P.Event)
    requires Stopping(s.ctl.at) && P.Enabled(s, e) && SameCall(e)
    ensures var t := P.Next(s, e); Stopping(t.ctl.at) && t.ctl.tunFd == s.ctl.tunFd && t.io.fd == s.io.fd
  {
  }

  lemma {:induction false} RunOnStop(s: P.State, es: seq<P.Event>, t: P.State)
    requires Stopping(s.ctl.at) && P.Run(s, es, t) && OfOneCall(es)
    ensures Stopping(t.ctl.at) && t.ctl.tunFd == s.ctl.tunFd && t.io.fd == s.io.fd
    decreases |es|
  {
    if es != [] {
      assert SameCall(es[0]);
      StepOnStop(s, es[0]);
      RunOnStop(P.Next(s, es[0]), es[1..], t);
    }
  }

  function JoinOutcome(t: P.State): E.Outcome { if t.ctl.detached then E.Abandons else E.Fine }

  /** So is every run of the pump through a shutdown, for the engine's join. */
  lemma JoinRefines(fd: nat, es: seq<P.Event>, s: P.State, more: seq<P.Event>, t: P.State,
                    c: E.Core, engine: E.Engine, restart: Option<nat>)
    requires P.Run(P.Initial(fd), es, s) && s.ctl.at == P.ClearLive(P.Shutdown)
    requires P.Run(s, more, t) && OfOneCall(more) && t.ctl.at.Ended?
    requires s.io.fd in c.fds.users && engine.fd == s.io.fd && engine.pump == Some(E.Pump(Some(s.io.fd)))
    ensures var (joined, pc) := E.CoreNext(c, E.Joining(engine, restart), JoinOutcome(t));
      && ThreadsOn(t) <= joined.fds.users
      && (s.io.fd in joined.fds.users <==> JoinOutcome(t).Abandons?)
      && pc == E.Closing(s.io.fd, E.Halt(restart)) && t.ctl.fds == s.ctl.fds - {pc.fd}
  {
    JoinLeaves(fd, es, s, more, t);
  }

  lemma JoinLeaves(fd: nat, es: seq<P.Event>, s: P.State, more: seq<P.Event>, t: P.State)
    requires P.Run(P.Initial(fd), es, s) && s.ctl.at == P.ClearLive(P.Shutdown)
    requires P.Run(s, more, t) && OfOneCall(more) && t.ctl.at.Ended?
    ensures ThreadsOn(t) <= if t.ctl.detached then {s.io.fd} else {}
    ensures t.ctl.fds == s.ctl.fds - {s.io.fd}
  {
    P.InvInitial(fd);
    P.RunKeepsInv(P.Initial(fd), es, s);
    RunOnStop(s, more, t);
    P.RunKeepsInv(s, more, t);
  }
}
