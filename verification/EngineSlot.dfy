/** start, stop and network_changed as they are written; other callers come and go, and wait for LIFECYCLE. */
module EngineSlot {
  import opened Bytes
  import opened EngineProtocol

  /** How the fallible parts of a call go. */
  datatype Faults = Faults(
    node: Outcome,       // node start-up and dup
    forwarder: Outcome,
    pump: Outcome,
    joined: Outcome,     // the old pump's threads, on a stop
    dup: Outcome,        // the dup for a swap
    swap: Outcome)

  class Shim {
    var engine: Option<Engine>
    var starting: bool
    var starts: nat
    var fds: Fds
    var lifecycle: Option<nat>
    var rebinding: bool
    var threads: seq<Thread>
    ghost var trace: seq<Event>

    constructor ()
      ensures Valid() && View() == INITIAL
    {
      engine, starting, starts, fds := None, false, 0, EMPTY.fds;
      lifecycle, rebinding, threads, trace := None, false, [], [];
    }

    function View(): State
      reads this
    {
      State(Core(engine, starting, starts, fds), lifecycle, rebinding, threads)
    }

    /** All that happened is a run of the protocol. */
    ghost predicate Valid()
      reads this
    {
      Run(INITIAL, trace, View())
    }

    /** Lock and flag are as they were. */
    ghost predicate SameGates(s: State)
      reads this
    {
      lifecycle == s.holder && rebinding == s.rebinding
    }

    ghost predicate At(t: nat, call: Call, pc: Pc)
      reads this
    {
      t < |threads| && threads[t] == Inside(call, pc)
    }

    /** The fields are where `e` takes them from `v`. */
    ghost method Record(v: State, e: Event)
      requires Run(INITIAL, trace, v) && Enabled(v, e) && View() == Next(v, e)
      modifies this`trace
      ensures Valid()
    {
      RunThen(INITIAL, trace, v, e);
      trace := trace + [e];
    }

    // ---- other callers ----

    method Perform(e: Event)
      requires Valid() && Enabled(View(), e)
      modifies this
      ensures Valid() && View() == Next(old(View()), e)
    {
      ghost var v := View();
      var n := Next(View(), e);
      engine, starting, starts, fds := n.core.slot, n.core.starting, n.core.starts, n.core.fds;
      lifecycle, rebinding, threads := n.holder, n.rebinding, n.threads;
      Record(v, e);
    }

    /** What other callers do meanwhile; what cannot happen is skipped. */
    method Others(me: nat, script: seq<Event>)
      requires Valid() && me < |threads|
      modifies this
      ensures Valid() && |threads| >= old(|threads|) && threads[me] == old(threads[me])
    {
      for i := 0 to |script|
        invariant Valid() && |threads| >= old(|threads|) && threads[me] == old(threads[me])
      {
        var e := script[i];
        if Enabled(View(), e) && !(e.Step? && e.t == me) {
          OtherLeaves(View(), e, me);
          Perform(e);
        }
      }
    }

    ghost function StepsLeft(): nat
      reads this
    {
      if lifecycle.Some? && lifecycle.value < |threads| then Steps(threads[lifecycle.value]) else 0
    }

    /** Waits for LIFECYCLE; whoever has it goes on to its end. */
    method Lock(me: nat, call: Call, script: seq<Event>, outcome: nat -> Outcome)
      requires Valid() && me < |threads| && threads[me] == Waiting(call)
      modifies this
      ensures Valid() && |threads| >= old(|threads|) && At(me, call, Entry(call)) && lifecycle == Some(me)
    {
      Others(me, script);
      while lifecycle.Some?
        invariant Valid() && |threads| >= old(|threads|) && me < |threads| && threads[me] == Waiting(call)
        decreases lifecycle.Some?, StepsLeft()
      {
        HolderIsInside(trace, View());
        var t := lifecycle.value;
        var e := Step(t, outcome(Steps(threads[t])));
        CallsEnd(View(), t, e.outcome);
        OtherLeaves(View(), e, me);
        HolderStays(View(), e);
        Perform(e);
      }
      var e := Step(me, Fine);
      Perform(e);
    }

    // ---- start, stop and network_changed under it ----

    /** What the holder did to the core, from `v` on, was its next step: it is at `pc` now. */
    method Go(t: nat, pc: Pc, ghost v: State, ghost outcome: Outcome)
      requires Run(INITIAL, trace, v)
      requires v == State(v.core, lifecycle, rebinding, threads)
      requires t < |threads| && threads[t].Inside? && !threads[t].pc.Finished? && !threads[t].pc.Panicked?
      requires CoreNext(v.core, threads[t].pc, outcome) == (View().core, pc)
      modifies this`threads, this`trace
      ensures Valid() && |threads| == old(|threads|) && At(t, old(threads[t]).call, pc)
    {
      threads := threads[t := Inside(threads[t].call, pc)];
      Record(v, Step(t, outcome));
    }

    method StartLocked(t: nat, ghost call: Call, config: nat, f: Faults) returns (r: Result)
      requires Valid() && At(t, call, CheckingSlot(config))
      modifies this
      ensures Valid() && |threads| == old(|threads|) && At(t, call, Finished(r)) && SameGates(old(View()))
      ensures r.Started? ==> engine.Some? && engine.value.start == r.node && engine.value.config == config
    {
      ghost var v := View();
      if engine.Some? {
        Go(t, Finished(AlreadyRunning), v, Fine);
        return AlreadyRunning;
      }
      Go(t, SettingStarting(config), v, Fine);
      v := View();
      if starting {
        Go(t, Finished(InProgress), v, Fine);
        return InProgress;
      }
      starting := true;
      Go(t, StartingNode(config), v, Fine);
      r := BuildAndInstall(t, call, config, f);
      ClearStarting(t, call, r);
    }

    method ClearStarting(t: nat, ghost call: Call, r: Result)
      requires Valid() && At(t, call, ClearingStarting(r))
      modifies this
      ensures Valid() && |threads| == old(|threads|) && At(t, call, Finished(r)) && SameGates(old(View()))
      ensures engine == old(engine)
    {
      ghost var v := View();
      starting := false;
      Go(t, Finished(r), v, Fine);
    }

    method BuildAndInstall(t: nat, ghost call: Call, config: nat, f: Faults) returns (r: Result)
      requires Valid() && At(t, call, StartingNode(config))
      modifies this
      ensures Valid() && |threads| == old(|threads|) && At(t, call, ClearingStarting(r)) && SameGates(old(View()))
      ensures r.Started? ==> engine.Some? && engine.value.start == r.node && engine.value.config == config
    {
      var built := StartInner(t, call, config, f);
      if built.None? {
        return Failed;
      }
      ghost var v := View();
      engine := built;
      r := Started(built.value.start);
      Go(t, ClearingStarting(r), v, Fine);
    }

    /** The dup, the forwarder and the pump; each failure closes what it must. */
    method StartInner(t: nat, ghost call: Call, config: nat, f: Faults) returns (built: Option<Engine>)
      requires Valid() && At(t, call, StartingNode(config))
      modifies this
      ensures Valid() && |threads| == old(|threads|) && SameGates(old(View()))
      ensures At(t, call, if built.Some? then Installing(built.value) else ClearingStarting(Failed))
      ensures built.Some? ==> built.value.config == config
    {
      ghost var v := View();
      if !f.node.Fine? {
        Go(t, ClearingStarting(Failed), v, f.node);
        return None;
      }
      var owned := fds.made;
      fds := Dup(fds);
      Go(t, SpawningForwarder(config, owned), v, Fine);
      v := View();
      if !f.forwarder.Fine? {
        Go(t, Closing(owned, Fail), v, f.forwarder);
        CloseFd(t, call, owned, Fail);
        return None;
      }
      Go(t, SpawningPump(config, owned), v, Fine);
      built := SpawnPump(t, call, config, owned, f.pump);
    }

    method SpawnPump(t: nat, ghost call: Call, config: nat, owned: nat, outcome: Outcome)
        returns (built: Option<Engine>)
      requires Valid() && At(t, call, SpawningPump(config, owned))
      modifies this
      ensures Valid() && |threads| == old(|threads|) && SameGates(old(View()))
      ensures At(t, call, if built.Some? then Installing(built.value) else ClearingStarting(Failed))
      ensures built.Some? ==> built.value.config == config
    {
      ghost var v := View();
      if outcome.Fine? {
        fds := Use(fds, owned);
        var node := starts;
        starts := starts + 1;
        built := Some(Engine(node, config, owned, Some(Pump(Some(owned)))));
        Go(t, Installing(built.value), v, Fine);
      } else {
        if outcome.Abandons? {
          fds := Abandon(Use(fds, owned), owned);
        }
        Go(t, Closing(owned, Fail), v, outcome);
        CloseFd(t, call, owned, Fail);
        built := None;
      }
    }

    method CloseFd(t: nat, ghost call: Call, fd: nat, ghost after: Then)
      requires Valid() && At(t, call, Closing(fd, after))
      modifies this
      ensures Valid() && |threads| == old(|threads|) && At(t, call, AfterClose(after)) && SameGates(old(View()))
      ensures engine == old(engine)
    {
      ghost var v := View();
      fds := Close(fds, fd);
      Go(t, AfterClose(threads[t].pc.after), v, Fine);
    }

    /** `restart` says what the caller goes on with. */
    method StopLocked(t: nat, ghost call: Call, restart: Option<nat>, joined: Outcome)
      requires Valid() && At(t, call, TakingEngine(restart))
      modifies this
      ensures Valid() && |threads| == old(|threads|) && At(t, call, Halted(restart)) && SameGates(old(View()))
      ensures engine.None?
    {
      ghost var v := View();
      if engine.None? {
        Go(t, Halted(restart), v, Fine);
        return;
      }
      var taken := engine.value;
      engine := None;
      Go(t, Joining(taken, restart), v, Fine);
      JoinPump(t, call, taken, restart, joined);
      CloseFd(t, call, taken.fd, Halt(restart));
    }

    /** Pump::join, for as long as it waits. */
    method JoinPump(t: nat, ghost call: Call, taken: Engine, restart: Option<nat>, outcome: Outcome)
      requires Valid() && At(t, call, Joining(taken, restart))
      modifies this
      ensures Valid() && |threads| == old(|threads|) && SameGates(old(View())) && engine == old(engine)
      ensures At(t, call, Closing(taken.fd, Halt(restart)))
    {
      ghost var v := View();
      if taken.pump.Some? {
        fds := Retire(fds, taken.pump.value, outcome);
      }
      Go(t, Closing(taken.fd, Halt(restart)), v, outcome);
    }

    /** False: the swap failed and the caller restarts the node. */
    method SwapTunLocked(t: nat, ghost call: Call, config: nat, node: nat, f: Faults) returns (ok: bool)
      requires Valid() && At(t, call, Dupping(config, node))
      modifies this
      ensures Valid() && |threads| == old(|threads|) && SameGates(old(View()))
      ensures At(t, call, if ok then Finished(Kept(node)) else TakingEngine(Some(config)))
    {
      ghost var v := View();
      if !f.dup.Fine? {
        Go(t, TakingEngine(Some(config)), v, f.dup);
        return false;
      }
      var owned := fds.made;
      fds := Dup(fds);
      Go(t, TakingPump(config, node, owned), v, Fine);
      ok := SwapTo(t, call, config, node, owned, f.swap);
    }

    method SwapTo(t: nat, ghost call: Call, config: nat, node: nat, owned: nat, outcome: Outcome) returns (ok: bool)
      requires Valid() && At(t, call, TakingPump(config, node, owned))
      modifies this
      ensures Valid() && |threads| == old(|threads|) && SameGates(old(View()))
      ensures At(t, call, if ok then Finished(Kept(node)) else TakingEngine(Some(config)))
    {
      ghost var v := View();
      if engine.None? || engine.value.pump.None? {
        Go(t, Closing(owned, Rebuild(config)), v, Fine);
        CloseFd(t, call, owned, Rebuild(config));
        return false;
      }
      var pump := engine.value.pump.value;
      engine := Some(engine.value.(pump := None));
      Go(t, SwappingIo(config, node, owned, pump), v, Fine);
      var moved := SwapFd(t, call, config, node, owned, pump, outcome);
      ok := PutBack(t, call, config, node, owned, moved, moved.io == Some(owned));
    }

    /** Pump::swap_fd. */
    method SwapFd(t: nat, ghost call: Call, config: nat, node: nat, owned: nat, pump: Pump, outcome: Outcome)
        returns (moved: Pump)
      requires Valid() && At(t, call, SwappingIo(config, node, owned, pump))
      modifies this
      ensures Valid() && |threads| == old(|threads|) && SameGates(old(View()))
      ensures moved.io.Some? ==> moved.io == Some(owned)
      ensures At(t, call, PuttingPump(config, node, owned, moved, moved.io.Some?))
    {
      ghost var v := View();
      if pump.io.None? {
        moved := pump;
      } else {
        fds := Retire(fds, pump, outcome);
        moved := Pump(None);
        if outcome.Fine? {
          fds := Use(fds, owned);
          moved := Pump(Some(owned));
        }
      }
      Go(t, PuttingPump(config, node, owned, moved, moved.io.Some?), v, outcome);
    }

    /** The pump back in the slot, which its `expect` finds full. */
    method PutBack(t: nat, ghost call: Call, config: nat, node: nat, owned: nat, pump: Pump, swapped: bool)
        returns (ok: bool)
      requires Valid() && At(t, call, PuttingPump(config, node, owned, pump, swapped))
      modifies this
      ensures Valid() && |threads| == old(|threads|) && SameGates(old(View())) && ok == swapped
      ensures At(t, call, if ok then Finished(Kept(node)) else TakingEngine(Some(config)))
    {
      ghost var v := View();
      SlotKeptDuringSwap(trace, v, t);
      var held := engine.value;
      engine := Some(held.(pump := Some(pump)));
      if !swapped {
        Go(t, Closing(owned, Rebuild(config)), v, Fine);
        CloseFd(t, call, owned, Rebuild(config));
        return false;
      }
      engine := Some(engine.value.(fd := owned));
      Go(t, Closing(held.fd, Keep(node)), v, Fine);
      CloseFd(t, call, held.fd, Keep(node));
      ok := true;
    }

    method NetworkChangedLocked(t: nat, ghost call: Call, asked: Option<nat>, f: Faults) returns (r: Result)
      requires Valid() && At(t, call, Reading(asked))
      modifies this
      ensures Valid() && |threads| == old(|threads|) && At(t, call, Finished(r)) && SameGates(old(View()))
    {
      ghost var v := View();
      if engine.None? {
        Go(t, Finished(NotRunning), v, Fine);
        return NotRunning;
      }
      var stored := engine.value.config;
      var config := if asked.Some? then asked.value else stored;
      var node := engine.value.start;
      if config == stored {
        Go(t, Dupping(config, node), v, Fine);
        var swapped := SwapTunLocked(t, call, config, node, f);
        if swapped {
          return Kept(node);
        }
      } else {
        Go(t, TakingEngine(Some(config)), v, Fine);
      }
      StopLocked(t, call, Some(config), f.joined);
      r := StartLocked(t, call, config, f);
    }

    // ---- the calls ----

    /** A caller comes in, and waits for LIFECYCLE unless REBINDING turns it away; false then. */
    method Enter(call: Call, before: seq<Event>, within: seq<Event>, outcome: nat -> Outcome)
        returns (t: nat, entered: bool)
      requires Valid()
      modifies this
      ensures Valid() && t == old(|threads|) && |threads| > t
      ensures if entered then At(t, call, Entry(call)) && lifecycle == Some(t)
              else call.ChangeCall? && threads[t] == Gone(Coalesced)
    {
      t := |threads|;
      Perform(Event.Enter(call));
      Others(t, before);
      if call.ChangeCall? {
        var taken := rebinding;
        Perform(Step(t, Fine));
        if taken {
          return t, false;
        }
      }
      Lock(t, call, within, outcome);
      entered := true;
    }

    /** LIFECYCLE released, and REBINDING after it. */
    method Leave(t: nat, call: Call, r: Result, after: seq<Event>)
      requires Valid() && At(t, call, Finished(r))
      modifies this
      ensures Valid() && |threads| >= old(|threads|) && threads[t] == Gone(r)
    {
      Perform(Step(t, Fine));
      Others(t, after);
      if call.ChangeCall? {
        Perform(Step(t, Fine));
      }
    }

    /** start: what it reports of the engine holds as it lets go of the lock. */
    method Start(config: nat, f: Faults, before: seq<Event>, within: seq<Event>, outcome: nat -> Outcome)
        returns (r: Result, ghost held: Core)
      requires Valid()
      modifies this
      ensures Valid() && old(|threads|) < |threads| && threads[old(|threads|)] == Gone(r)
      ensures ResultShape(held.slot, r) && Free(held)
    {
      var call := StartCall(config);
      var t, _ := Enter(call, before, within, outcome);
      r := StartLocked(t, call, config, f);
      held := ReportIsTrue(trace, View(), t);
      Leave(t, call, r, []);
    }

    method Stop(f: Faults, before: seq<Event>, within: seq<Event>, outcome: nat -> Outcome) returns (ghost held: Core)
      requires Valid()
      modifies this
      ensures Valid() && old(|threads|) < |threads| && threads[old(|threads|)] == Gone(Stopped)
      ensures held.slot.None? && Free(held)
    {
      var t, _ := Enter(StopCall, before, within, outcome);
      StopLocked(t, StopCall, None, f.joined);
      held := ReportIsTrue(trace, View(), t);
      Leave(t, StopCall, Stopped, []);
    }

    method NetworkChanged(asked: Option<nat>, f: Faults, before: seq<Event>, within: seq<Event>, after: seq<Event>,
                          outcome: nat -> Outcome)
        returns (r: Result, ghost held: Core)
      requires Valid()
      modifies this
      ensures Valid() && old(|threads|) < |threads| && threads[old(|threads|)] == Gone(r)
      ensures r.Coalesced? || (ResultShape(held.slot, r) && Free(held))
    {
      var call := ChangeCall(asked);
      var t, entered := Enter(call, before, within, outcome);
      if !entered {
        return Coalesced, View().core;
      }
      r := NetworkChangedLocked(t, call, asked, f);
      held := ReportIsTrue(trace, View(), t);
      Leave(t, call, r, after);
    }
  }

  /** Whatever a caller is about to report is so, and the core it leaves is fit for the next one. */
  lemma ReportIsTrue(es: seq<Event>, t: State, i: nat) returns (held: Core)
    requires Run(INITIAL, es, t) && i < |t.threads| && t.threads[i].Inside? && t.threads[i].pc.Finished?
    ensures held == t.core && ResultShape(held.slot, t.threads[i].pc.result) && Free(held)
  {
    InvInitial();
    RunKeepsInv(INITIAL, es, t);
    held := t.core;
    FinishedIsFree(held, t.threads[i].pc.result);
  }

  lemma OtherLeaves(s: State, e: Event, me: nat)
    requires Enabled(s, e) && me < |s.threads| && !(e.Step? && e.t == me)
    ensures |Next(s, e).threads| >= |s.threads| && Next(s, e).threads[me] == s.threads[me]
  {
  }

  lemma HolderIsInside(es: seq<Event>, t: State)
    requires Run(INITIAL, es, t) && t.holder.Some?
    ensures t.holder.value < |t.threads| && t.threads[t.holder.value].Inside? && !t.threads[t.holder.value].pc.Panicked?
  {
    InvInitial();
    RunKeepsInv(INITIAL, es, t);
  }

  /** The holder keeps the lock until it is through. */
  lemma HolderStays(s: State, e: Event)
    requires Enabled(s, e) && e.Step? && s.threads[e.t].Inside? && s.holder == Some(e.t)
    ensures Next(s, e).holder == if s.threads[e.t].pc.Finished? then None else s.holder
  {
  }
}
