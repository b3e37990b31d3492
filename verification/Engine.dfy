/** Starting, stopping and rebinding the engine: two locks, two flags, the engine's slot and the dups of the TUN fd. */
module EngineProtocol {
  import opened Bytes

  /** A pump, and the fd its reader and writer run on. */
  datatype Pump = Pump(io: Option<nat>)

  /** `start` numbers the node, `fd` is our dup. */
  datatype Engine = Engine(start: nat, config: nat, fd: nat, pump: Option<Pump>)

  datatype Result =
    | Started(node: nat)
    | AlreadyRunning
    | InProgress       // "start already in progress"
    | Failed
    | Stopped
    | NotRunning
    | Kept(node: nat)  // the tunnel was swapped under this node
    | Coalesced        // REBINDING was taken

  /** What follows the close of a dup. */
  datatype Then =
    | Fail             // a start that failed
    | Halt(restart: Option<nat>)    // the old engine is gone; perhaps start again with this config
    | Rebuild(config: nat)          // a swap that failed
    | Keep(node: nat)

  /** Where the caller holding LIFECYCLE is. */
  datatype Pc =
    // start_locked
    | CheckingSlot(config: nat)
    | SettingStarting(config: nat)
    | StartingNode(config: nat)     // up to the dup
    | SpawningForwarder(config: nat, fd: nat)
    | SpawningPump(config: nat, fd: nat)
    | Installing(engine: Engine)
    | ClearingStarting(result: Result)
    // stop_locked
    | TakingEngine(restart: Option<nat>)
    | Joining(engine: Engine, restart: Option<nat>)
    // network_changed
    | Reading(asked: Option<nat>)
    | Dupping(config: nat, node: nat)
    | TakingPump(config: nat, node: nat, fd: nat)
    | SwappingIo(config: nat, node: nat, fd: nat, pump: Pump)
    | PuttingPump(config: nat, node: nat, fd: nat, pump: Pump, swapped: bool)
    // shared
    | Closing(fd: nat, after: Then)
    | Finished(result: Result)
    | Panicked                      // the `expect` in the swap

  /** `Fails` leaves nothing behind; `Abandons` leaves threads that still hold the fd. */
  datatype Outcome = Fine | Fails | Abandons

  /** Every dup ever made has a number; `users` are the fds some reader or writer may still touch, `abandoned` those of
      them nobody waits for any more. */
  datatype Fds = Fds(made: nat, closes: seq<nat>, users: set<nat>, abandoned: set<nat>)

  datatype Core = Core(slot: Option<Engine>, starting: bool, starts: nat, fds: Fds)

  const EMPTY := Core(None, false, 0, Fds(0, [], {}, {}))

  function Dup(f: Fds): Fds { f.(made := f.made + 1) }

  function Close(f: Fds, fd: nat): Fds { f.(closes := f.closes + [fd]) }

  function Use(f: Fds, fd: nat): Fds { f.(users := f.users + {fd}) }

  function Abandon(f: Fds, fd: nat): Fds { f.(abandoned := f.abandoned + {fd}) }

  function IoOf(p: Pump): set<nat> { if p.io.Some? then {p.io.value} else {} }

  /** A generation retired in time; or abandoned, still on its fd. */
  function Retire(f: Fds, p: Pump, outcome: Outcome): Fds {
    if outcome.Abandons? then f.(abandoned := f.abandoned + IoOf(p)) else f.(users := f.users - IoOf(p))
  }

  /** Where the holder goes once start, stop or swap is through its close. */
  function AfterClose(after: Then): Pc {
    match after
    case Fail => ClearingStarting(Failed)
    case Halt(restart) => Halted(restart)
    case Rebuild(config) => TakingEngine(Some(config))
    case Keep(node) => Finished(Kept(node))
  }

  function Halted(restart: Option<nat>): Pc {
    if restart.Some? then CheckingSlot(restart.value) else Finished(Stopped)
  }

  predicate OfStart(pc: Pc) {
    || pc.CheckingSlot? || pc.SettingStarting? || pc.StartingNode? || pc.SpawningForwarder? || pc.SpawningPump?
    || pc.Installing? || pc.ClearingStarting?
  }

  predicate OfStop(pc: Pc) { pc.TakingEngine? || pc.Joining? }

  predicate OfSwap(pc: Pc) { pc.Reading? || pc.Dupping? || pc.TakingPump? || pc.SwappingIo? || pc.PuttingPump? }

  function StartNext(c: Core, pc: Pc, outcome: Outcome): (Core, Pc)
    requires OfStart(pc)
  {
    match pc
    case CheckingSlot(config) => (c, if c.slot.Some? then Finished(AlreadyRunning) else SettingStarting(config))
    case SettingStarting(config) =>
      if c.starting then (c, Finished(InProgress)) else (c.(starting := true), StartingNode(config))
    case StartingNode(config) =>
      if outcome.Fine? then (c.(fds := Dup(c.fds)), SpawningForwarder(config, c.fds.made))
      else (c, ClearingStarting(Failed))
    case SpawningForwarder(config, fd) =>
      (c, if outcome.Fine? then SpawningPump(config, fd) else Closing(fd, Fail))
    case SpawningPump(config, fd) =>
      if outcome.Fine? then
        (c.(fds := Use(c.fds, fd), starts := c.starts + 1),
         Installing(Engine(c.starts, config, fd, Some(Pump(Some(fd))))))
      else if outcome.Fails? then (c, Closing(fd, Fail))
      else (c.(fds := Abandon(Use(c.fds, fd), fd)), Closing(fd, Fail))
    case Installing(engine) => (c.(slot := Some(engine)), ClearingStarting(Started(engine.start)))
    case ClearingStarting(result) => (c.(starting := false), Finished(result))
  }

  function StopNext(c: Core, pc: Pc, outcome: Outcome): (Core, Pc)
    requires OfStop(pc)
  {
    match pc
    case TakingEngine(restart) =>
      if c.slot.None? then (c, Halted(restart)) else (c.(slot := None), Joining(c.slot.value, restart))
    case Joining(engine, restart) =>
      (if engine.pump.Some? then c.(fds := Retire(c.fds, engine.pump.value, outcome)) else c,
       Closing(engine.fd, Halt(restart)))
  }

  function SwapNext(c: Core, pc: Pc, outcome: Outcome): (Core, Pc)
    requires OfSwap(pc)
  {
    match pc
    case Reading(asked) =>
      if c.slot.None? then (c, Finished(NotRunning))
      else
        var stored := c.slot.value.config;
        var wanted := if asked.Some? then asked.value else stored;
        (c, if wanted == stored then Dupping(wanted, c.slot.value.start) else TakingEngine(Some(wanted)))
    case Dupping(config, node) =>
      if outcome.Fine? then (c.(fds := Dup(c.fds)), TakingPump(config, node, c.fds.made))
      else (c, TakingEngine(Some(config)))
    case TakingPump(config, node, fd) =>
      if c.slot.None? || c.slot.value.pump.None? then (c, Closing(fd, Rebuild(config)))
      else (c.(slot := Some(c.slot.value.(pump := None))), SwappingIo(config, node, fd, c.slot.value.pump.value))
    case SwappingIo(config, node, fd, pump) =>
      if pump.io.None? then (c, PuttingPump(config, node, fd, pump, false))
      else
        var retired := Retire(c.fds, pump, outcome);
        if outcome.Fine? then (c.(fds := Use(retired, fd)), PuttingPump(config, node, fd, Pump(Some(fd)), true))
        else (c.(fds := retired), PuttingPump(config, node, fd, Pump(None), false))
    case PuttingPump(config, node, fd, pump, swapped) =>
      if c.slot.None? then (c, Panicked)
      else if swapped then
        (c.(slot := Some(c.slot.value.(pump := Some(pump), fd := fd))), Closing(c.slot.value.fd, Keep(node)))
      else (c.(slot := Some(c.slot.value.(pump := Some(pump)))), Closing(fd, Rebuild(config)))
  }

  /** One step of the caller holding LIFECYCLE. */
  function CoreNext(c: Core, pc: Pc, outcome: Outcome): (Core, Pc)
    requires !pc.Finished? && !pc.Panicked?
  {
    if OfStart(pc) then StartNext(c, pc, outcome)
    else if OfStop(pc) then StopNext(c, pc, outcome)
    else if OfSwap(pc) then SwapNext(c, pc, outcome)
    else (c.(fds := Close(c.fds, pc.fd)), AfterClose(pc.after))
  }

  // ---------------------------------------------------------------------------------
  // What holds of the core, given where the holder is
  // ---------------------------------------------------------------------------------

  /** Dups nobody but the holder knows of. */
  function InHand(pc: Pc): set<nat> {
    match pc
    case SpawningForwarder(_, fd) => {fd}
    case SpawningPump(_, fd) => {fd}
    case Installing(engine) => {engine.fd}
    case Joining(engine, _) => {engine.fd}
    case TakingPump(_, _, fd) => {fd}
    case SwappingIo(_, _, fd, _) => {fd}
    case PuttingPump(_, _, fd, _, _) => {fd}
    case Closing(fd, _) => {fd}
    case _ => {}
  }

  function InSlot(slot: Option<Engine>): set<nat> { if slot.Some? then {slot.value.fd} else {} }

  function PumpUsers(p: Option<Pump>): set<nat> { if p.Some? then IoOf(p.value) else {} }

  function SlotUsers(slot: Option<Engine>): set<nat> { if slot.Some? then PumpUsers(slot.value.pump) else {} }

  /** Generations the holder has in hand. */
  function PcUsers(pc: Pc): set<nat> {
    match pc
    case Installing(engine) => PumpUsers(engine.pump)
    case Joining(engine, _) => PumpUsers(engine.pump)
    case SwappingIo(_, _, _, pump) => IoOf(pump)
    case PuttingPump(_, _, _, pump, _) => IoOf(pump)
    case _ => {}
  }

  predicate IsOpen(f: Fds, fd: nat) { fd < f.made && fd !in f.closes }

  ghost predicate NoneTwice(closes: seq<nat>) {
    forall i, j :: 0 <= i < j < |closes| ==> closes[i] != closes[j]
  }

  /** The open dups are the slot's and the holder's, and nothing was closed twice. */
  ghost predicate Ledger(f: Fds, slot: set<nat>, hand: set<nat>) {
    && NoneTwice(f.closes)
    && (forall fd :: fd in f.closes ==> fd < f.made)
    && (forall fd: nat :: IsOpen(f, fd) <==> fd in slot || fd in hand)
    && slot !! hand
  }

  /** A stored engine whose pump runs on its fd. */
  predicate Healthy(slot: Option<Engine>) {
    slot.Some? ==> slot.value.pump == Some(Pump(Some(slot.value.fd)))
  }

  predicate Running(slot: Option<Engine>, node: nat) {
    slot.Some? && slot.value.start == node
  }

  predicate PumpOn(p: Option<Pump>, fd: nat) {
    p.Some? && (p.value.io.None? || p.value.io == Some(fd))
  }

  /** The slot, by where the holder is. */
  predicate Shape(slot: Option<Engine>, pc: Pc) {
    match pc
    case CheckingSlot(_) => Healthy(slot)
    case SettingStarting(_) => slot.None?
    case StartingNode(_) => slot.None?
    case SpawningForwarder(_, _) => slot.None?
    case SpawningPump(_, _) => slot.None?
    case Installing(engine) => slot.None? && engine.pump == Some(Pump(Some(engine.fd)))
    case ClearingStarting(result) => ResultShape(slot, result)
    case TakingEngine(restart) =>
      if restart.None? then Healthy(slot) else slot.Some? && PumpOn(slot.value.pump, slot.value.fd)
    case Joining(engine, _) => slot.None? && PumpOn(engine.pump, engine.fd)
    case Reading(_) => Healthy(slot)
    case Dupping(_, node) => Healthy(slot) && Running(slot, node)
    case TakingPump(_, node, _) => Healthy(slot) && Running(slot, node)
    case SwappingIo(_, node, _, pump) =>
      Running(slot, node) && slot.value.pump.None? && pump.io == Some(slot.value.fd)
    case PuttingPump(_, node, fd, pump, swapped) =>
      Running(slot, node) && slot.value.pump.None? && pump.io == if swapped then Some(fd) else None
    case Closing(_, after) => (
      match after
      case Fail => slot.None?
      case Halt(_) => slot.None?
      case Rebuild(_) => slot.Some? && slot.value.pump == Some(Pump(None))
      case Keep(node) => Healthy(slot) && Running(slot, node))
    case Finished(result) => ResultShape(slot, result)
    case Panicked => false
  }

  predicate ResultShape(slot: Option<Engine>, result: Result) {
    && Healthy(slot)
    && (result.Started? || result.Kept? ==> Running(slot, result.node))
    && (result.Failed? || result.Stopped? || result.NotRunning? ==> slot.None?)
    && (result.AlreadyRunning? ==> slot.Some?)
    && !result.InProgress? && !result.Coalesced?
  }

  predicate InStart(pc: Pc) {
    || pc.StartingNode? || pc.SpawningForwarder? || pc.SpawningPump? || pc.Installing? || pc.ClearingStarting?
    || (pc.Closing? && pc.after.Fail?)
  }

  /** A dup in hand that no thread was given yet. */
  function Unused(pc: Pc): set<nat> {
    match pc
    case SpawningForwarder(_, fd) => {fd}
    case SpawningPump(_, fd) => {fd}
    case TakingPump(_, _, fd) => {fd}
    case SwappingIo(_, _, fd, _) => {fd}
    case _ => {}
  }

  /** The fds in use are those of the generation in the slot or in hand, and of the abandoned ones. */
  predicate UsersKnown(f: Fds, slot: Option<Engine>, pc: Pc) {
    && f.users == SlotUsers(slot) + PcUsers(pc) + f.abandoned
    && f.abandoned !! SlotUsers(slot) + PcUsers(pc) + Unused(pc)
    && forall fd :: fd in f.abandoned ==> fd < f.made
  }

  ghost predicate Good(c: Core, pc: Pc) {
    && Ledger(c.fds, InSlot(c.slot), InHand(pc))
    && Shape(c.slot, pc)
    && (c.starting <==> InStart(pc))
    && UsersKnown(c.fds, c.slot, pc)
    && (c.slot.Some? ==> c.slot.value.start < c.starts)
    && (pc.Installing? ==> pc.engine.start < c.starts)
  }

  lemma DupKeepsLedger(f: Fds, slot: set<nat>)
    requires Ledger(f, slot, {})
    ensures Ledger(Dup(f), slot, {f.made})
  {
    assert !IsOpen(f, f.made);
    assert forall fd: nat :: IsOpen(Dup(f), fd) <==> IsOpen(f, fd) || fd == f.made;
  }

  lemma CloseKeepsLedger(f: Fds, slot: set<nat>, fd: nat)
    requires Ledger(f, slot, {fd})
    ensures Ledger(Close(f, fd), slot, {})
  {
    assert IsOpen(f, fd);
    var g := Close(f, fd);
    assert forall x :: x in g.closes <==> x in f.closes || x == fd;
    assert forall x: nat :: IsOpen(g, x) <==> IsOpen(f, x) && x != fd;
  }

  lemma LedgerReads(f: Fds, g: Fds, slot: set<nat>, hand: set<nat>, slot': set<nat>, hand': set<nat>)
    requires Ledger(f, slot, hand) && g.made == f.made && g.closes == f.closes
    requires slot + hand == slot' + hand' && slot' !! hand'
    ensures Ledger(g, slot', hand')
  {
    assert forall fd: nat :: IsOpen(g, fd) <==> IsOpen(f, fd);
    assert forall fd :: fd in slot || fd in hand <==> fd in slot + hand;
    assert forall fd :: fd in slot' || fd in hand' <==> fd in slot' + hand';
  }

  ghost predicate LedgerGood(c: Core, pc: Pc) { Ledger(c.fds, InSlot(c.slot), InHand(pc)) }

  lemma StartKeepsLedger(c: Core, pc: Pc, outcome: Outcome)
    requires OfStart(pc) && LedgerGood(c, pc) && Shape(c.slot, pc)
    ensures var (d, next) := StartNext(c, pc, outcome); LedgerGood(d, next)
  {
    var (d, next) := StartNext(c, pc, outcome);
    if pc.StartingNode? && outcome.Fine? {
      DupKeepsLedger(c.fds, InSlot(c.slot));
    } else {
      LedgerReads(c.fds, d.fds, InSlot(c.slot), InHand(pc), InSlot(d.slot), InHand(next));
    }
  }

  lemma StopKeepsLedger(c: Core, pc: Pc, outcome: Outcome)
    requires OfStop(pc) && LedgerGood(c, pc) && Shape(c.slot, pc)
    ensures var (d, next) := StopNext(c, pc, outcome); LedgerGood(d, next)
  {
    var (d, next) := StopNext(c, pc, outcome);
    LedgerReads(c.fds, d.fds, InSlot(c.slot), InHand(pc), InSlot(d.slot), InHand(next));
  }

  lemma SwapKeepsLedger(c: Core, pc: Pc, outcome: Outcome)
    requires OfSwap(pc) && LedgerGood(c, pc) && Shape(c.slot, pc)
    ensures var (d, next) := SwapNext(c, pc, outcome); LedgerGood(d, next)
  {
    var (d, next) := SwapNext(c, pc, outcome);
    if pc.Dupping? && outcome.Fine? {
      DupKeepsLedger(c.fds, InSlot(c.slot));
    } else {
      LedgerReads(c.fds, d.fds, InSlot(c.slot), InHand(pc), InSlot(d.slot), InHand(next));
    }
  }

  /** Everything but the ledger. */
  ghost predicate RestGood(c: Core, pc: Pc) {
    && Shape(c.slot, pc)
    && (c.starting <==> InStart(pc))
    && UsersKnown(c.fds, c.slot, pc)
    && (c.slot.Some? ==> c.slot.value.start < c.starts)
    && (pc.Installing? ==> pc.engine.start < c.starts)
  }

  ghost predicate HeldIsMade(c: Core, pc: Pc) {
    forall fd :: fd in InSlot(c.slot) || fd in InHand(pc) ==> fd < c.fds.made
  }

  lemma OpenIsMade(c: Core, pc: Pc)
    requires LedgerGood(c, pc)
    ensures HeldIsMade(c, pc)
  {
    assert forall fd: nat :: fd in InSlot(c.slot) || fd in InHand(pc) ==> IsOpen(c.fds, fd);
  }

  lemma StartKeepsRest(c: Core, pc: Pc, outcome: Outcome)
    requires OfStart(pc) && RestGood(c, pc) && HeldIsMade(c, pc)
    ensures var (d, next) := StartNext(c, pc, outcome); RestGood(d, next)
  {
    assert pc.SpawningPump? ==> pc.fd in InHand(pc);
  }

  lemma StopKeepsRest(c: Core, pc: Pc, outcome: Outcome)
    requires OfStop(pc) && RestGood(c, pc) && HeldIsMade(c, pc)
    ensures var (d, next) := StopNext(c, pc, outcome); RestGood(d, next)
  {
    assert pc.Joining? ==> pc.engine.fd in InHand(pc);
  }

  lemma SwapKeepsRest(c: Core, pc: Pc, outcome: Outcome)
    requires OfSwap(pc) && RestGood(c, pc) && HeldIsMade(c, pc)
    ensures var (d, next) := SwapNext(c, pc, outcome); RestGood(d, next)
  {
    assert c.slot.Some? ==> c.slot.value.fd in InSlot(c.slot);
  }

  lemma CloseKeepsGood(c: Core, fd: nat, after: Then)
    requires Good(c, Closing(fd, after))
    ensures Good(c.(fds := Close(c.fds, fd)), AfterClose(after))
  {
    CloseKeepsLedger(c.fds, InSlot(c.slot), fd);
  }

  lemma StepKeepsGood(c: Core, pc: Pc, outcome: Outcome)
    requires !pc.Finished? && !pc.Panicked? && Good(c, pc)
    ensures var (d, next) := CoreNext(c, pc, outcome); Good(d, next)
  {
    OpenIsMade(c, pc);
    if OfStart(pc) {
      StartKeepsLedger(c, pc, outcome);
      StartKeepsRest(c, pc, outcome);
    } else if OfStop(pc) {
      StopKeepsLedger(c, pc, outcome);
      StopKeepsRest(c, pc, outcome);
    } else if OfSwap(pc) {
      SwapKeepsLedger(c, pc, outcome);
      SwapKeepsRest(c, pc, outcome);
    } else {
      CloseKeepsGood(c, pc.fd, pc.after);
    }
  }

  // ---------------------------------------------------------------------------------
  // Callers
  // ---------------------------------------------------------------------------------

  datatype Call = StartCall(config: nat) | StopCall | ChangeCall(asked: Option<nat>)

  datatype Thread =
    | Arriving(call: Call)          // network_changed about to swap REBINDING
    | Waiting(call: Call)           // for LIFECYCLE
    | Inside(call: Call, pc: Pc)
    | Leaving(result: Result)       // network_changed about to clear REBINDING
    | Gone(result: Result)

  /** `holder` is the thread that has LIFECYCLE. */
  datatype State = State(core: Core, holder: Option<nat>, rebinding: bool, threads: seq<Thread>)

  datatype Event =
    | Enter(call: Call)
    | Step(t: nat, outcome: Outcome)
    | Exit(fd: nat)               // the threads abandoned on an fd end after all

  const INITIAL := State(EMPTY, None, false, [])

  predicate Enabled(s: State, e: Event) {
    match e
    case Enter(_) => true
    case Step(t, _) =>
      && t < |s.threads| && !s.threads[t].Gone?
      && (s.threads[t].Waiting? ==> s.holder.None?)
      && (s.threads[t].Inside? ==> !s.threads[t].pc.Panicked?)
    case Exit(fd) => fd in s.core.fds.abandoned
  }

  function Exited(f: Fds, fd: nat): Fds {
    f.(users := f.users - {fd}, abandoned := f.abandoned - {fd})
  }

  function Entry(call: Call): Pc {
    match call
    case StartCall(config) => CheckingSlot(config)
    case StopCall => TakingEngine(None)
    case ChangeCall(asked) => Reading(asked)
  }

  function Moved(s: State, t: nat, th: Thread): State
    requires t < |s.threads|
  {
    s.(threads := s.threads[t := th])
  }

  function InsideNext(s: State, t: nat, outcome: Outcome): State
    requires t < |s.threads| && s.threads[t].Inside? && !s.threads[t].pc.Panicked?
  {
    var th := s.threads[t];
    if th.pc.Finished? then
      Moved(s.(holder := None), t, if th.call.ChangeCall? then Leaving(th.pc.result) else Gone(th.pc.result))
    else
      var (core, pc) := CoreNext(s.core, th.pc, outcome);
      Moved(s.(core := core), t, Inside(th.call, pc))
  }

  function Next(s: State, e: Event): State
    requires Enabled(s, e)
  {
    match e
    case Enter(call) => s.(threads := s.threads + [if call.ChangeCall? then Arriving(call) else Waiting(call)])
    case Step(t, outcome) => (
      match s.threads[t]
      case Arriving(call) =>
        if s.rebinding then Moved(s, t, Gone(Coalesced)) else Moved(s.(rebinding := true), t, Waiting(call))
      case Waiting(call) => Moved(s.(holder := Some(t)), t, Inside(call, Entry(call)))
      case Inside(_, _) => InsideNext(s, t, outcome)
      case Leaving(result) => Moved(s.(rebinding := false), t, Gone(result)))
    case Exit(fd) => s.(core := s.core.(fds := Exited(s.core.fds, fd)))
  }

  ghost predicate Run(s: State, es: seq<Event>, t: State)
    decreases |es|
  {
    if es == [] then s == t else Enabled(s, es[0]) && Run(Next(s, es[0]), es[1..], t)
  }

  lemma {:induction false} RunThen(s: State, es: seq<Event>, t: State, e: Event)
    requires Run(s, es, t) && Enabled(t, e)
    ensures Run(s, es + [e], Next(t, e))
    decreases |es|
  {
    if es == [] {
      assert ([] + [e])[1..] == [];
    } else {
      RunThen(Next(s, es[0]), es[1..], t, e);
      assert (es + [e])[1..] == es[1..] + [e];
    }
  }

  /** LIFECYCLE is free: what one caller leaves and the next one finds. */
  ghost predicate Free(c: Core) { Good(c, Reading(None)) }

  ghost predicate OneHolder(s: State) {
    && (s.holder.Some? ==> s.holder.value < |s.threads| && s.threads[s.holder.value].Inside?)
    && (forall i :: 0 <= i < |s.threads| && s.threads[i].Inside? ==> s.holder == Some(i))
  }

  ghost predicate CoreGood(s: State) {
    && (s.holder.None? ==> Free(s.core))
    && (s.holder.Some? && s.holder.value < |s.threads| && s.threads[s.holder.value].Inside? ==>
          Good(s.core, s.threads[s.holder.value].pc))
  }

  /** A rebind past its REBINDING swap. */
  predicate Rebinds(th: Thread) {
    || (th.Waiting? && th.call.ChangeCall?)
    || (th.Inside? && th.call.ChangeCall?)
    || th.Leaving?
  }

  ghost predicate OneRebind(s: State) {
    && (forall i, j :: 0 <= i < j < |s.threads| ==> !(Rebinds(s.threads[i]) && Rebinds(s.threads[j])))
    && (s.rebinding <==> exists i :: 0 <= i < |s.threads| && Rebinds(s.threads[i]))
  }

  predicate ResultOk(th: Thread) {
    && (th.Leaving? || th.Gone? ==> !th.result.InProgress?)
    && (th.Arriving? ==> th.call.ChangeCall?)
  }

  ghost predicate ResultsOk(s: State) {
    forall i :: 0 <= i < |s.threads| ==> ResultOk(s.threads[i])
  }

  ghost predicate Inv(s: State) { OneHolder(s) && CoreGood(s) && OneRebind(s) && ResultsOk(s) }

  lemma FreeIsEntry(c: Core, call: Call)
    requires Free(c)
    ensures Good(c, Entry(call))
  {
  }

  lemma FinishedIsFree(c: Core, result: Result)
    requires Good(c, Finished(result))
    ensures Free(c)
  {
  }

  lemma ExitKeepsGood(c: Core, pc: Pc, fd: nat)
    requires Good(c, pc) && fd in c.fds.abandoned
    ensures Good(c.(fds := Exited(c.fds, fd)), pc)
  {
    LedgerReads(c.fds, Exited(c.fds, fd), InSlot(c.slot), InHand(pc), InSlot(c.slot), InHand(pc));
  }

  lemma StepKeepsOneHolder(s: State, e: Event)
    requires OneHolder(s) && Enabled(s, e)
    ensures OneHolder(Next(s, e))
  {
  }

  lemma StepKeepsCoreGood(s: State, e: Event)
    requires OneHolder(s) && CoreGood(s) && Enabled(s, e)
    ensures CoreGood(Next(s, e))
  {
    if e.Step? {
      var th := s.threads[e.t];
      if th.Waiting? {
        FreeIsEntry(s.core, th.call);
      } else if th.Inside? {
        assert s.holder == Some(e.t);
        if th.pc.Finished? {
          FinishedIsFree(s.core, th.pc.result);
        } else {
          StepKeepsGood(s.core, th.pc, e.outcome);
        }
      }
    } else if e.Exit? {
      if s.holder.None? {
        ExitKeepsGood(s.core, Reading(None), e.fd);
      } else {
        ExitKeepsGood(s.core, s.threads[s.holder.value].pc, e.fd);
      }
    }
  }

  lemma StepKeepsOneRebind(s: State, e: Event)
    requires OneRebind(s) && ResultsOk(s) && Enabled(s, e)
    ensures OneRebind(Next(s, e))
  {
    var n := Next(s, e);
    if e.Enter? {
      assert forall i :: 0 <= i < |s.threads| ==> n.threads[i] == s.threads[i];
      assert !Rebinds(n.threads[|s.threads|]);
      if s.rebinding {
        var i :| 0 <= i < |s.threads| && Rebinds(s.threads[i]);
        assert Rebinds(n.threads[i]);
      }
    } else if e.Step? {
      assert ResultOk(s.threads[e.t]);
      if s.rebinding {
        var i :| 0 <= i < |s.threads| && Rebinds(s.threads[i]);
        assert i != e.t ==> n.threads[i] == s.threads[i];
        assert n.rebinding ==> Rebinds(n.threads[i]);
      } else {
        assert n.rebinding ==> Rebinds(n.threads[e.t]);
      }
    }
  }

  lemma StepKeepsResultsOk(s: State, e: Event)
    requires OneHolder(s) && CoreGood(s) && ResultsOk(s) && Enabled(s, e)
    ensures ResultsOk(Next(s, e))
  {
    var n := Next(s, e);
    if e.Step? {
      assert ResultOk(s.threads[e.t]);
      assert ResultOk(n.threads[e.t]);
    }
  }

  lemma StepKeepsInv(s: State, e: Event)
    requires Inv(s) && Enabled(s, e)
    ensures Inv(Next(s, e))
  {
    StepKeepsOneHolder(s, e);
    StepKeepsCoreGood(s, e);
    StepKeepsOneRebind(s, e);
    StepKeepsResultsOk(s, e);
  }

  lemma {:induction false} RunKeepsInv(s: State, es: seq<Event>, t: State)
    requires Inv(s) && Run(s, es, t)
    ensures Inv(t)
    decreases |es|
  {
    if es != [] {
      StepKeepsInv(s, es[0]);
      RunKeepsInv(Next(s, es[0]), es[1..], t);
    }
  }

  // ---------------------------------------------------------------------------------
  // Main results
  // ---------------------------------------------------------------------------------

  lemma InvInitial()
    ensures Inv(INITIAL)
  {
    assert forall fd: nat :: !IsOpen(EMPTY.fds, fd);
  }

  /** No dup is closed twice; the open ones are the slot's and the one in the hand of LIFECYCLE's holder. */
  lemma DupsBalance(es: seq<Event>, t: State)
    requires Run(INITIAL, es, t)
    ensures NoneTwice(t.core.fds.closes)
    ensures forall fd :: fd in t.core.fds.closes ==> fd < t.core.fds.made
    ensures t.holder.None? ==>
      forall fd: nat :: IsOpen(t.core.fds, fd) <==> t.core.slot.Some? && t.core.slot.value.fd == fd
    ensures forall fd: nat :: IsOpen(t.core.fds, fd) <==> fd in InSlot(t.core.slot) || fd in HeldDups(t)
  {
    InvInitial();
    RunKeepsInv(INITIAL, es, t);
    assert Ledger(t.core.fds, InSlot(t.core.slot), HeldDups(t));
  }

  function HeldDups(s: State): set<nat> {
    if s.holder.Some? && s.holder.value < |s.threads| && s.threads[s.holder.value].Inside? then
      InHand(s.threads[s.holder.value].pc)
    else {}
  }

  /** With LIFECYCLE free, a stored engine's pump runs on its dup; no start is in progress. */
  lemma StoredEngineIsWhole(es: seq<Event>, t: State)
    requires Run(INITIAL, es, t) && t.holder.None?
    ensures t.core.slot.Some? ==> t.core.slot.value.pump == Some(Pump(Some(t.core.slot.value.fd)))
    ensures !t.core.starting
  {
    InvInitial();
    RunKeepsInv(INITIAL, es, t);
  }

  /** The swap's `expect` holds, "start already in progress" never comes back, and one caller at a time is inside. */
  lemma DeadBranches(es: seq<Event>, t: State, i: nat)
    requires Run(INITIAL, es, t) && i < |t.threads|
    ensures t.threads[i].Inside? ==> !t.threads[i].pc.Panicked? && t.holder == Some(i)
    ensures t.threads[i].Gone? ==> !t.threads[i].result.InProgress?
  {
    InvInitial();
    RunKeepsInv(INITIAL, es, t);
    assert ResultOk(t.threads[i]);
  }

  /** What a call reports is so when it reports it. */
  lemma ResultIsTrue(es: seq<Event>, t: State, i: nat)
    requires Run(INITIAL, es, t) && i < |t.threads| && t.threads[i].Inside? && t.threads[i].pc.Finished?
    ensures var slot, result := t.core.slot, t.threads[i].pc.result;
      && (result.Started? || result.Kept? ==> slot.Some? && slot.value.start == result.node)
      && (result.Failed? || result.Stopped? || result.NotRunning? ==> slot.None?)
      && (result.AlreadyRunning? ==> slot.Some?)
      && (slot.Some? ==> slot.value.pump == Some(Pump(Some(slot.value.fd))))
  {
    InvInitial();
    RunKeepsInv(INITIAL, es, t);
    assert t.holder == Some(i);
  }

  /** The node a swap is working under, if it is at one. */
  function Swapping(th: Thread): Option<nat> {
    if !th.Inside? then None
    else
      match th.pc
      case Dupping(_, node) => Some(node)
      case TakingPump(_, node, _) => Some(node)
      case SwappingIo(_, node, _, _) => Some(node)
      case PuttingPump(_, node, _, _, _) => Some(node)
      case Closing(_, Keep(node)) => Some(node)
      case Finished(Kept(node)) => Some(node)
      case _ => None
  }

  /** Whoever reads the slot while a swap is under way finds the node it keeps. */
  lemma SlotKeptDuringSwap(es: seq<Event>, t: State, i: nat)
    requires Run(INITIAL, es, t) && i < |t.threads| && Swapping(t.threads[i]).Some?
    ensures t.core.slot.Some? && t.core.slot.value.start == Swapping(t.threads[i]).value
  {
    InvInitial();
    RunKeepsInv(INITIAL, es, t);
    assert t.holder == Some(i);
  }

  /** Nobody has a closed fd. */
  ghost predicate NobodyOnClosed(f: Fds) {
    forall fd :: fd in f.users ==> IsOpen(f, fd)
  }

  /** In every run, no reader or writer has a closed fd exactly if none that was abandoned still runs on one; and with
      LIFECYCLE free, exactly if every one that was abandoned has ended. */
  lemma ClosedUnderThreadIff(es: seq<Event>, t: State)
    requires Run(INITIAL, es, t)
    ensures var f := t.core.fds; NobodyOnClosed(f) <==> forall fd :: fd in f.abandoned ==> fd !in f.closes
    ensures t.holder.None? ==> (NobodyOnClosed(t.core.fds) <==> t.core.fds.abandoned == {})
  {
    InvInitial();
    RunKeepsInv(INITIAL, es, t);
    if t.holder.Some? {
      OpenButAbandoned(t.core, t.threads[t.holder.value].pc);
    } else {
      OpenButAbandoned(t.core, Reading(None));
      AbandonedIsClosed(t.core);
    }
  }

  /** All users but the abandoned ones have open fds. */
  lemma OpenButAbandoned(c: Core, pc: Pc)
    requires Good(c, pc)
    ensures NobodyOnClosed(c.fds) <==> forall fd :: fd in c.fds.abandoned ==> fd !in c.fds.closes
  {
    forall fd | fd in c.fds.users && fd !in c.fds.abandoned
      ensures IsOpen(c.fds, fd)
    {
      assert fd in InSlot(c.slot) || fd in InHand(pc);
    }
    forall fd | fd in c.fds.abandoned
      ensures IsOpen(c.fds, fd) <==> fd !in c.fds.closes
    {
    }
  }

  /** An fd with abandoned threads is closed by the call that abandoned them. */
  lemma AbandonedIsClosed(c: Core)
    requires Free(c)
    ensures forall fd :: fd in c.fds.abandoned ==> fd in c.fds.closes
  {
    forall fd | fd in c.fds.abandoned
      ensures !IsOpen(c.fds, fd)
    {
      assert fd !in InSlot(c.slot);
    }
  }

  predicate Abandoning(e: Event) { e.Step? && e.outcome.Abandons? }

  lemma AbandonedOnlyByAbandon(s: State, e: Event)
    requires Enabled(s, e) && !Abandoning(e) && s.core.fds.abandoned == {}
    ensures Next(s, e).core.fds.abandoned == {}
  {
  }

  lemma {:induction false} NothingAbandoned(s: State, es: seq<Event>, t: State)
    requires Run(s, es, t) && s.core.fds.abandoned == {} && forall i :: 0 <= i < |es| ==> !Abandoning(es[i])
    ensures t.core.fds.abandoned == {}
    decreases |es|
  {
    if es != [] {
      assert !Abandoning(es[0]);
      AbandonedOnlyByAbandon(s, es[0]);
      NothingAbandoned(Next(s, es[0]), es[1..], t);
    }
  }

  /** So as long as every stop is in time and the bridge spawns, nobody has a closed fd. */
  lemma NobodyOnClosedFd(es: seq<Event>, t: State)
    requires Run(INITIAL, es, t) && forall i :: 0 <= i < |es| ==> !Abandoning(es[i])
    ensures NobodyOnClosed(t.core.fds)
  {
    NothingAbandoned(INITIAL, es, t);
    ClosedUnderThreadIff(es, t);
  }

  /** A caller that is not through can go on, or the one holding LIFECYCLE can. */
  lemma NoDeadlock(es: seq<Event>, t: State, i: nat)
    requires Run(INITIAL, es, t) && i < |t.threads| && !t.threads[i].Gone?
    ensures exists j :: Enabled(t, Step(j, Fine))
  {
    InvInitial();
    RunKeepsInv(INITIAL, es, t);
    if t.threads[i].Waiting? && t.holder.Some? {
      assert Enabled(t, Step(t.holder.value, Fine));
    } else {
      assert Enabled(t, Step(i, Fine));
    }
  }

  function PcSteps(pc: Pc): nat {
    match pc
    case Finished(_) => 0
    case Panicked => 0
    case ClearingStarting(_) => 1
    case Installing(_) => 2
    case SpawningPump(_, _) => 3
    case SpawningForwarder(_, _) => 4
    case StartingNode(_) => 5
    case SettingStarting(_) => 6
    case CheckingSlot(_) => 7
    case Joining(_, _) => 9
    case TakingEngine(_) => 10
    case PuttingPump(_, _, _, _, _) => 12
    case SwappingIo(_, _, _, _) => 13
    case TakingPump(_, _, _) => 14
    case Dupping(_, _) => 15
    case Reading(_) => 16
    case Closing(_, after) => if after.Fail? then 2 else if after.Halt? then 8 else if after.Rebuild? then 11 else 1
  }

  function Steps(th: Thread): nat {
    match th
    case Arriving(_) => 20
    case Waiting(_) => 19
    case Inside(_, pc) => PcSteps(pc) + 2
    case Leaving(_) => 1
    case Gone(_) => 0
  }

  /** Every step brings its own call nearer to its end and touches no other call. */
  lemma CallsEnd(s: State, t: nat, outcome: Outcome)
    requires Enabled(s, Step(t, outcome))
    ensures var n := Next(s, Step(t, outcome));
      && Steps(n.threads[t]) < Steps(s.threads[t]) && |n.threads| == |s.threads|
      && forall i :: 0 <= i < |s.threads| && i != t ==> n.threads[i] == s.threads[i]
  {
    if s.threads[t].Inside? && !s.threads[t].pc.Finished? {
      StepsDown(s.core, s.threads[t].pc, outcome);
    }
  }

  lemma StepsDown(c: Core, pc: Pc, outcome: Outcome)
    requires !pc.Finished? && !pc.Panicked?
    ensures PcSteps(CoreNext(c, pc, outcome).1) < PcSteps(pc)
  {
  }

  // ---------------------------------------------------------------------------------
  // When a rebind keeps the node
  // ---------------------------------------------------------------------------------

  /** network_changed from its snapshot to its end or to the restart. */
  function Rebind(c: Core, pc: Pc, dup: Outcome, swap: Outcome): (Core, Pc)
    decreases PcSteps(pc)
  {
    if pc.Finished? || pc.Panicked? || pc.TakingEngine? then (c, pc)
    else
      StepsDown(c, pc, if pc.Dupping? then dup else swap);
      var (d, next) := CoreNext(c, pc, if pc.Dupping? then dup else swap);
      Rebind(d, next, dup, swap)
  }

  /** The node is kept exactly if the config is the stored one and dup and swap succeed; then only the fd is new. */
  lemma KeepsNodeIff(c: Core, asked: Option<nat>, dup: Outcome, swap: Outcome)
    requires Free(c) && c.slot.Some?
    ensures var (d, pc) := Rebind(c, Reading(asked), dup, swap);
      var e := c.slot.value;
      var wanted := if asked.Some? then asked.value else e.config;
      if wanted == e.config && dup.Fine? && swap.Fine? then
        pc == Finished(Kept(e.start))
        && d.slot == Some(e.(fd := c.fds.made, pump := Some(Pump(Some(c.fds.made)))))
        && d.fds.closes == c.fds.closes + [e.fd]
      else pc == TakingEngine(Some(wanted))
  {
    var e := c.slot.value;
    var wanted := if asked.Some? then asked.value else e.config;
    var (_, read) := CoreNext(c, Reading(asked), swap);
    if wanted == e.config {
      assert read == Dupping(wanted, e.start);
      DupEnds(c, wanted, dup, swap);
    } else {
      assert read == TakingEngine(Some(wanted)) && Rebind(c, read, dup, swap) == (c, read);
    }
  }

  lemma DupEnds(c: Core, config: nat, dup: Outcome, swap: Outcome)
    requires c.slot.Some? && Healthy(c.slot)
    ensures var (d, pc) := Rebind(c, Dupping(config, c.slot.value.start), dup, swap);
      var e := c.slot.value;
      if dup.Fine? && swap.Fine? then
        pc == Finished(Kept(e.start)) && d.slot == Some(e.(fd := c.fds.made, pump := Some(Pump(Some(c.fds.made)))))
        && d.fds.closes == c.fds.closes + [e.fd]
      else pc == TakingEngine(Some(config))
  {
    var (d, pc) := CoreNext(c, Dupping(config, c.slot.value.start), dup);
    if dup.Fine? {
      SwapEnds(d, config, c.fds.made, dup, swap);
    } else {
      assert Rebind(d, pc, dup, swap) == (d, pc);
    }
  }

  lemma SwapEnds(c: Core, config: nat, fd: nat, dup: Outcome, swap: Outcome)
    requires c.slot.Some? && Healthy(c.slot)
    ensures var (d, pc) := Rebind(c, TakingPump(config, c.slot.value.start, fd), dup, swap);
      var e := c.slot.value;
      if swap.Fine? then
        pc == Finished(Kept(e.start)) && d.slot == Some(e.(fd := fd, pump := Some(Pump(Some(fd)))))
        && d.fds.closes == c.fds.closes + [e.fd]
      else pc == TakingEngine(Some(config))
  {
    var e := c.slot.value;
    var taken := c.(slot := Some(e.(pump := None)));
    assert CoreNext(c, TakingPump(config, e.start, fd), swap)
        == (taken, SwappingIo(config, e.start, fd, Pump(Some(e.fd))));
    PutEnds(taken, config, e.start, fd, dup, swap);
  }

  lemma PutEnds(c: Core, config: nat, node: nat, fd: nat, dup: Outcome, swap: Outcome)
    requires c.slot.Some?
    ensures var (d, pc) := Rebind(c, SwappingIo(config, node, fd, Pump(Some(c.slot.value.fd))), dup, swap);
      var e := c.slot.value;
      if swap.Fine? then
        pc == Finished(Kept(node)) && d.slot == Some(e.(fd := fd, pump := Some(Pump(Some(fd)))))
        && d.fds.closes == c.fds.closes + [e.fd]
      else pc == TakingEngine(Some(config))
  {
    var e := c.slot.value;
    var (c1, pc1) := CoreNext(c, SwappingIo(config, node, fd, Pump(Some(e.fd))), swap);
    var (c2, pc2) := CoreNext(c1, pc1, swap);
    var (c3, pc3) := CoreNext(c2, pc2, swap);
    assert pc1.PuttingPump? && pc2.Closing?;
    assert Rebind(c3, pc3, dup, swap) == (c3, pc3);
    assert Rebind(c2, pc2, dup, swap) == (c3, pc3);
    assert Rebind(c1, pc1, dup, swap) == (c3, pc3);
  }
}
