/** The TUN pump: reader and writer threads on one fd, retired and replaced by `swap_fd`. */
module PumpProtocol {
  import opened Bytes

  type Packet = seq<Byte>

  /** The stop sentinel: no real packet is empty. */
  const SENTINEL: Packet := []

  /** Where the writer thread is in its loop. */
  datatype WriterPc =
    | WRunning                // about to load `running`
    | WLive                   // about to load `live`
    | WRecv                   // in recv()
    | WWrite(pkt: Packet)     // in write(fd, pkt)
    | WStopped                // out of the loop, marker not sent yet
    | WDone                   // marker sent, receiver handed back

  /** Where the reader thread is in its loop. */
  datatype ReaderPc = RRunning | RLive | RPoll | RRead | RHandle | RStopped | RDone

  /** One reader/writer generation. `asked`, `failed` and `late` are history. */
  datatype Io = Io(
    fd: nat,
    live: bool,
    woken: bool,
    reader: ReaderPc,
    writer: WriterPc,
    markers: nat,   // done markers sent and not received yet
    asked: bool,    // the stop sentinel of this generation was sent
    failed: bool,   // a write failed
    late: nat)      // packets written after `live` was cleared

  datatype Purpose = Swap(newFd: nat) | Shutdown

  /** Where the thread holding LIFECYCLE is. */
  datatype ControlPc =
    | SpawningBridge
    | Idle
    | ClearLive(why: Purpose)
    | WakeReader(why: Purpose)
    | SendSentinel(why: Purpose)
    | Await(why: Purpose, left: nat)
    | SpawnIo(newFd: nat)         // stop_io gave the receiver back
    | RetireHalf(newFd: nat)      // the writer could not be spawned, the reader is up
    | WakeHalf(newFd: nat)
    | JoinHalf(newFd: nat)
    | CloseOld(oldFd: nat)        // swap done
    | CloseNew(newFd: nat)        // swap failed
    | FdLess                      // the pump has no reader/writer
    | CloseLast                   // stop_locked, threads joined or abandoned
    | Ended

  datatype ReceiverPlace = AtWriter | InHand | Dropped

  /** What became of a packet the writer took. */
  datatype Fate = Fate(pkt: Packet, fd: nat, written: bool)

  /** The writer channel; `lost` is what was queued when its receiver was dropped. */
  datatype Channel = Channel(queue: seq<Packet>, receiver: ReceiverPlace, sent: seq<Packet>, lost: seq<Packet>)

  /** What the thread holding LIFECYCLE works with; `fds` are the open dups, `detached` says that it abandoned
      threads. */
  datatype Holder = Holder(at: ControlPc, tunFd: nat, fds: set<nat>, nextFd: nat, detached: bool)

  /** `fates` are the packets the writers took, in order. */
  datatype State = State(chan: Channel, running: bool, io: Io, ctl: Holder, fates: seq<Fate>)

  /** How a system call or a hand-over of the reader goes: on, round the loop again, or out of it. */
  datatype ReaderChoice = Proceed | Retry | Leave

  datatype ControlStep =
    | BridgeUp | BridgeFails | BeginSwap | BeginStop | Advance | TimesOut | SpawnFails | WriterSpawnFails

  /** One atomic step of one thread, with whatever the outside world decides. */
  datatype Event =
    | Send(pkt: Packet)
    | Writer(writeOk: bool)
    | Reader(choice: ReaderChoice)
    | Control(step: ControlStep)

  function NewIo(fd: nat): Io {
    Io(fd, true, false, RRunning, WRunning, 0, false, false, 0)
  }

  /** After spawn_io of the first generation, before the bridge. */
  function Initial(fd: nat): State {
    State(Channel([], AtWriter, [], []), true, NewIo(fd), Holder(SpawningBridge, fd, {fd}, fd + 1, false), [])
  }

  /** The real packets of a channel, in order. */
  function RealPackets(q: seq<Packet>): seq<Packet> {
    if q == [] then [] else (if q[0] == SENTINEL then [] else [q[0]]) + RealPackets(q[1..])
  }

  function Taken(fates: seq<Fate>): (packets: seq<Packet>)
    ensures |packets| == |fates|
  {
    seq(|fates|, i requires 0 <= i < |fates| => fates[i].pkt)
  }

  /** The packet the writer has taken and not finished with. */
  function InFlight(w: WriterPc): seq<Packet> {
    if w.WWrite? then [w.pkt] else []
  }

  /** Dropping the receiver drops what is queued. */
  function DropReceiver(c: Channel): Channel {
    Channel([], Dropped, c.sent, c.lost + RealPackets(c.queue))
  }

  predicate ControlEnabled(s: State, c: ControlStep) {
    match c
    case BridgeUp => s.ctl.at.SpawningBridge?
    case BridgeFails => s.ctl.at.SpawningBridge?
    case BeginSwap => s.ctl.at.Idle?
    case BeginStop => s.ctl.at.Idle? || s.ctl.at.FdLess?
    case TimesOut => s.ctl.at.Await?
    case SpawnFails => s.ctl.at.SpawnIo?
    case WriterSpawnFails => s.ctl.at.SpawnIo?
    case Advance =>
      match s.ctl.at
      case Await(_, _) => 0 < s.io.markers
      case JoinHalf(_) => s.io.reader.RDone?
      case SpawningBridge => false
      case Idle => false
      case FdLess => false
      case Ended => false
      case _ => true
  }

  predicate Enabled(s: State, e: Event) {
    match e
    case Send(p) => p != SENTINEL
    case Writer(_) => !s.io.writer.WDone? && (s.io.writer.WRecv? ==> s.chan.queue != [])
    case Reader(_) => !s.io.reader.RDone?
    case Control(c) => ControlEnabled(s, c)
  }

  /** A send fails when the receiver is gone. */
  function SendTo(c: Channel, p: Packet): Channel {
    if c.receiver.Dropped? then c else c.(queue := c.queue + [p], sent := c.sent + [p])
  }

  function WriterAt(s: State, pc: WriterPc): State { s.(io := s.io.(writer := pc)) }

  /** The first packet out of the channel; sentinels are skipped. */
  function Received(s: State): State
    requires s.chan.queue != []
  {
    var pkt := s.chan.queue[0];
    s.(chan := s.chan.(queue := s.chan.queue[1..]),
       io := s.io.(writer := if pkt == SENTINEL then WRunning else WWrite(pkt)))
  }

  /** write(fd, pkt), which ends the writer if it fails. */
  function Written(s: State, pkt: Packet, writeOk: bool): State {
    s.(fates := s.fates + [Fate(pkt, s.io.fd, writeOk)],
       io := s.io.(writer := if writeOk then WRunning else WStopped,
                   failed := s.io.failed || !writeOk,
                   late := s.io.late + if s.io.live then 0 else 1))
  }

  /** The marker; with its handle dropped the thread's result, the receiver, goes too. */
  function WriterEnded(s: State): State {
    s.(io := s.io.(writer := WDone, markers := s.io.markers + 1),
       chan := if s.ctl.detached then DropReceiver(s.chan) else s.chan)
  }

  function WriterNext(s: State, writeOk: bool): State
    requires Enabled(s, Writer(writeOk))
  {
    match s.io.writer
    case WRunning => WriterAt(s, if s.running then WLive else WStopped)
    case WLive => WriterAt(s, if s.io.live then WRecv else WStopped)
    case WRecv => Received(s)
    case WWrite(pkt) => Written(s, pkt, writeOk)
    case WStopped => WriterEnded(s)
  }

  function ReaderPcNext(s: State, choice: ReaderChoice): ReaderPc {
    match s.io.reader
    case RRunning => if s.running then RLive else RStopped
    case RLive => if s.io.live then RPoll else RStopped
    case RPoll => if s.io.woken then RStopped else Chosen(choice, RRead)
    case RRead => Chosen(choice, RHandle)
    case RHandle => Chosen(choice, RRunning)
    case _ => RDone
  }

  function Chosen(choice: ReaderChoice, onward: ReaderPc): ReaderPc {
    match choice
    case Proceed => onward
    case Retry => RRunning
    case Leave => RStopped
  }

  function ReaderNext(s: State, choice: ReaderChoice): State
    requires Enabled(s, Reader(choice))
  {
    s.(io := s.io.(reader := ReaderPcNext(s, choice),
                   markers := s.io.markers + if s.io.reader.RStopped? then 1 else 0))
  }

  function HolderAt(s: State, pc: ControlPc): State { s.(ctl := s.ctl.(at := pc)) }

  function Closed(h: Holder, fd: nat, pc: ControlPc): Holder { h.(fds := h.fds - {fd}, at := pc) }

  /** One of the two done markers taken; after the second the receiver comes back, or goes with the pump. */
  function MarkerTaken(s: State, why: Purpose, left: nat): State {
    var taken := s.(io := s.io.(markers := if 0 < s.io.markers then s.io.markers - 1 else 0));
    if 1 < left then HolderAt(taken, Await(why, left - 1))
    else if why.Swap? then HolderAt(taken.(chan := s.chan.(receiver := InHand)), SpawnIo(why.newFd))
    else HolderAt(taken.(chan := DropReceiver(s.chan)), CloseLast)
  }

  function AdvanceNext(s: State): State
    requires ControlEnabled(s, Advance)
  {
    match s.ctl.at
    case ClearLive(why) => HolderAt(s.(io := s.io.(live := false)), WakeReader(why))
    case WakeReader(why) => HolderAt(s.(io := s.io.(woken := true)), SendSentinel(why))
    case SendSentinel(why) =>
      var queue := if s.chan.receiver.Dropped? then s.chan.queue else s.chan.queue + [SENTINEL];
      HolderAt(s.(chan := s.chan.(queue := queue), io := s.io.(asked := true)), Await(why, 2))
    case Await(why, left) => MarkerTaken(s, why, left)
    case SpawnIo(newFd) =>
      s.(io := NewIo(newFd), chan := s.chan.(receiver := AtWriter),
         ctl := s.ctl.(at := CloseOld(s.ctl.tunFd), tunFd := newFd))
    case RetireHalf(newFd) => HolderAt(s.(io := s.io.(live := false)), WakeHalf(newFd))
    case WakeHalf(newFd) => HolderAt(s.(io := s.io.(woken := true)), JoinHalf(newFd))
    case JoinHalf(newFd) => HolderAt(s, CloseNew(newFd))
    case CloseOld(oldFd) => s.(ctl := Closed(s.ctl, oldFd, Idle))
    case CloseNew(newFd) => s.(ctl := Closed(s.ctl, newFd, FdLess))
    case CloseLast => s.(ctl := Closed(s.ctl, s.ctl.tunFd, Ended))
  }

  /** The wait given up: a writer that is through takes the receiver with it at once. */
  function GivenUp(s: State, why: Purpose): State {
    s.(ctl := s.ctl.(detached := true, at := if why.Swap? then CloseNew(why.newFd) else CloseLast),
       chan := if s.io.writer.WDone? then DropReceiver(s.chan) else s.chan)
  }

  function ControlNext(s: State, c: ControlStep): State
    requires ControlEnabled(s, c)
  {
    match c
    case BridgeUp => HolderAt(s, Idle)
    // `?` drops the generation with its threads running; the engine closes the fd.
    case BridgeFails => s.(ctl := s.ctl.(detached := true, at := CloseLast))
    case BeginSwap =>
      var n := s.ctl.nextFd;
      s.(ctl := s.ctl.(fds := s.ctl.fds + {n}, nextFd := n + 1, at := ClearLive(Swap(n))))
    case BeginStop => HolderAt(s.(running := false), if s.ctl.at.Idle? then ClearLive(Shutdown) else CloseLast)
    case Advance => AdvanceNext(s)
    case TimesOut => GivenUp(s, s.ctl.at.why)
    case SpawnFails => HolderAt(s.(chan := DropReceiver(s.chan)), CloseNew(s.ctl.at.newFd))
    case WriterSpawnFails =>
      HolderAt(s.(chan := DropReceiver(s.chan), io := NewIo(s.ctl.at.newFd).(writer := WDone)),
               RetireHalf(s.ctl.at.newFd))
  }

  function Next(s: State, e: Event): State
    requires Enabled(s, e)
  {
    match e
    case Send(p) => s.(chan := SendTo(s.chan, p))
    case Writer(ok) => WriterNext(s, ok)
    case Reader(choice) => ReaderNext(s, choice)
    case Control(c) => ControlNext(s, c)
  }

  /** The state after `es`, up to the first event that cannot be taken. */
  function After(s: State, es: seq<Event>): (t: State)
    decreases |es|
  {
    if es == [] || !Enabled(s, es[0]) then s else After(Next(s, es[0]), es[1..])
  }

  /** `es` can be taken step by step from `s`, ending in `t`. */
  ghost predicate Run(s: State, es: seq<Event>, t: State)
    decreases |es|
  {
    if es == [] then s == t else Enabled(s, es[0]) && Run(Next(s, es[0]), es[1..], t)
  }

  lemma RunAfter(s: State, e: Event, es: seq<Event>, t: State)
    requires Enabled(s, e) && Run(Next(s, e), es, t)
    ensures Run(s, [e] + es, t)
  {
    assert ([e] + es)[1..] == es;
  }

  lemma {:induction false} RunConcat(s: State, es: seq<Event>, m: State, fs: seq<Event>, t: State)
    requires Run(s, es, m) && Run(m, fs, t)
    ensures Run(s, es + fs, t)
    decreases |es|
  {
    if es == [] {
      assert es + fs == fs;
    } else {
      RunConcat(Next(s, es[0]), es[1..], m, fs, t);
      assert (es + fs)[1..] == es[1..] + fs;
    }
  }

  lemma RunThen(s: State, es: seq<Event>, t: State, e: Event)
    requires Run(s, es, t) && Enabled(t, e)
    ensures Run(s, es + [e], Next(t, e))
  {
    RunAfter(t, e, [], Next(t, e));
    RunConcat(s, es, t, [e] + [], Next(t, e));
    assert [e] + [] == [e];
  }

  // ---------------------------------------------------------------------------------
  // The inductive invariant
  // ---------------------------------------------------------------------------------

  /** Nothing sent is lost, duplicated or reordered. */
  ghost predicate Conserved(s: State) {
    s.chan.sent == Taken(s.fates) + InFlight(s.io.writer) + RealPackets(s.chan.queue) + s.chan.lost
  }

  /** The fds written to only ever move forward, and a failed write is its generation's last. */
  ghost predicate InOrderUpTo(fates: seq<Fate>, fd: nat, failed: bool) {
    && (forall i, j :: 0 <= i < j < |fates| ==>
          fates[i].fd <= fates[j].fd && (!fates[i].written ==> fates[i].fd < fates[j].fd))
    && (forall i :: 0 <= i < |fates| ==>
          fates[i].fd <= fd && (!fates[i].written && fates[i].fd == fd ==> failed))
  }

  ghost predicate FatesInOrder(s: State) {
    && InOrderUpTo(s.fates, s.io.fd, s.io.failed)
    && (s.io.failed ==> s.io.writer.WStopped? || s.io.writer.WDone?)
  }

  lemma LaterFdInOrder(fates: seq<Fate>, fd: nat, failed: bool, later: nat)
    requires InOrderUpTo(fates, fd, failed) && fd < later
    ensures InOrderUpTo(fates, later, false)
  {
  }

  predicate ThreadsDone(io: Io) {
    io.reader.RDone? && io.writer.WDone?
  }

  function DoneCount(io: Io): nat {
    (if io.reader.RDone? then 1 else 0) + (if io.writer.WDone? then 1 else 0)
  }

  /** The fd that the control thread still has to close, besides `tunFd`. */
  function Pending(c: ControlPc): set<nat> {
    if Incoming(c).Some? then {Incoming(c).value}
    else if HalfUp(c) || c.CloseNew? then {c.newFd}
    else if c.CloseOld? then {c.oldFd}
    else {}
  }

  /** The dups that are open at each point of the control thread. */
  ghost predicate Ledger(s: State) {
    && s.ctl.fds == (if s.ctl.at.Ended? then {} else {s.ctl.tunFd}) + Pending(s.ctl.at)
    && s.ctl.tunFd !in Pending(s.ctl.at)
    && (forall fd :: fd in s.ctl.fds ==> fd < s.ctl.nextFd)
    && s.ctl.tunFd < s.ctl.nextFd
    && s.io.fd < s.ctl.nextFd
  }

  predicate HalfUp(c: ControlPc) { c.RetireHalf? || c.WakeHalf? || c.JoinHalf? }

  /** The fd a swap in progress is moving to. */
  function Incoming(c: ControlPc): Option<nat> {
    match c
    case ClearLive(Swap(n)) => Some(n)
    case WakeReader(Swap(n)) => Some(n)
    case SendSentinel(Swap(n)) => Some(n)
    case Await(Swap(n), _) => Some(n)
    case SpawnIo(n) => Some(n)
    case _ => None
  }

  /** The generation's fd is the engine's, or the new one while only its reader came up. */
  ghost predicate GenerationFd(s: State) {
    && (HalfUp(s.ctl.at) ==> s.io.fd == s.ctl.at.newFd && s.io.writer.WDone? && s.chan.receiver.Dropped?)
    && (!HalfUp(s.ctl.at) && !Retired(s.ctl.at) ==> s.io.fd == s.ctl.tunFd)
    // A swap hands out larger fds only.
    && (Incoming(s.ctl.at).Some? ==> s.io.fd < Incoming(s.ctl.at).value)
  }

  /** How far the retirement of the current generation is. */
  ghost predicate Phase(s: State) {
    var c := s.ctl.at;
    && (c.SpawningBridge? || c.Idle? || c.ClearLive? || c.CloseOld? || c.RetireHalf? ==> s.io.live)
    && (c.WakeReader? || c.SendSentinel? || c.Await? || c.WakeHalf? || c.JoinHalf? ==> !s.io.live)
    && (c.SendSentinel? || c.Await? || c.JoinHalf? ==> s.io.woken)
    && (s.io.asked ==> !s.io.live && s.io.woken)
    && (c.Await? ==> s.io.asked && 1 <= c.left <= 2)
  }

  /** The done markers sent and not taken are those of the finished threads. */
  ghost predicate Markers(s: State) {
    var c := s.ctl.at;
    && (c.Await? ==> c.left <= 2 && s.io.markers + (2 - c.left) == DoneCount(s.io))
    && (c.SpawningBridge? || c.Idle? || c.ClearLive? || c.WakeReader? || c.SendSentinel? || c.CloseOld?
        ==> s.io.markers == DoneCount(s.io))
    && (c.SpawnIo? ==> ThreadsDone(s.io))
    && (s.ctl.detached || ThreadsDone(s.io) || !Retired(c))
    && (s.ctl.detached ==> Retired(c))
  }

  /** Who has the channel's receiver. */
  ghost predicate Receiver(s: State) {
    && (s.ctl.at.SpawnIo? <==> s.chan.receiver.InHand?)
    && (!s.io.writer.WDone? ==> s.chan.receiver.AtWriter?)
    && (s.chan.receiver.Dropped? ==> s.chan.queue == [] && (HalfUp(s.ctl.at) || Retired(s.ctl.at)))
    && (!s.chan.receiver.Dropped? ==> s.chan.lost == [])
  }

  /** The pump is without reader and writer, for good. */
  predicate Retired(c: ControlPc) { c.CloseNew? || c.FdLess? || c.CloseLast? || c.Ended? }

  /** What the writer's program counter says about the flags and the channel. */
  ghost predicate WriterOk(s: State) {
    var io := s.io;
    && (io.writer.WWrite? ==> io.writer.pkt != SENTINEL)
    && (io.asked && io.writer.WRecv? ==> SENTINEL in s.chan.queue)
    && (io.writer.WStopped? || (io.writer.WDone? && s.chan.receiver.AtWriter?) ==> !s.running || !io.live || io.failed)
    && (io.live ==> io.late == 0)
    && io.late + (if io.writer.WRecv? || io.writer.WWrite? then 1 else 0) <= 1
  }

  /** The fd under a thread's system call is open. */
  ghost predicate FdSafe(s: State) {
    !ThreadsDone(s.io) ==> s.io.fd in s.ctl.fds
  }

  ghost predicate Inv(s: State) {
    && Conserved(s)
    && FatesInOrder(s)
    && Ledger(s)
    && GenerationFd(s)
    && Phase(s)
    && Markers(s)
    && Receiver(s)
    && WriterOk(s)
  }

  lemma {:induction false} RealPacketsAppend(q: seq<Packet>, p: Packet)
    ensures RealPackets(q + [p]) == RealPackets(q) + (if p == SENTINEL then [] else [p])
  {
    if q != [] {
      RealPacketsAppend(q[1..], p);
      assert (q + [p])[1..] == q[1..] + [p];
    }
  }

  lemma TakenAppend(fates: seq<Fate>, f: Fate)
    ensures Taken(fates + [f]) == Taken(fates) + [f.pkt]
  {
  }

  lemma InitialConserved(fd: nat)
    ensures Conserved(Initial(fd)) && FatesInOrder(Initial(fd))
  {
    assert Taken([]) == [];
  }

  lemma InvInitial(fd: nat)
    ensures Inv(Initial(fd))
  {
    InitialConserved(fd);
  }

  lemma SendKeepsInv(s: State, p: Packet)
    requires Inv(s) && Enabled(s, Send(p))
    ensures Inv(Next(s, Send(p)))
  {
    RealPacketsAppend(s.chan.queue, p);
  }

  lemma ReceiveKeepsConserved(s: State, ok: bool)
    requires Conserved(s) && s.io.writer.WRecv? && Enabled(s, Writer(ok))
    ensures Conserved(WriterNext(s, ok))
  {
    var t := WriterNext(s, ok);
    assert RealPackets(s.chan.queue) == InFlight(t.io.writer) + RealPackets(t.chan.queue);
  }

  lemma WriteKeepsConserved(s: State, ok: bool)
    requires Conserved(s) && s.io.writer.WWrite? && Enabled(s, Writer(ok))
    ensures Conserved(WriterNext(s, ok))
  {
    var t := WriterNext(s, ok);
    TakenAppend(s.fates, Fate(s.io.writer.pkt, s.io.fd, ok));
    assert Taken(t.fates) == Taken(s.fates) + InFlight(s.io.writer);
  }

  lemma StopKeepsConserved(s: State, ok: bool)
    requires Conserved(s) && Receiver(s) && s.io.writer.WStopped?
    ensures Conserved(WriterNext(s, ok))
  {
    var t := WriterNext(s, ok);
    assert RealPackets(s.chan.queue) + s.chan.lost == RealPackets(t.chan.queue) + t.chan.lost;
  }

  lemma WriterKeepsConserved(s: State, ok: bool)
    requires Conserved(s) && Receiver(s) && Enabled(s, Writer(ok))
    ensures Conserved(WriterNext(s, ok))
  {
    if s.io.writer.WRecv? {
      ReceiveKeepsConserved(s, ok);
    } else if s.io.writer.WWrite? {
      WriteKeepsConserved(s, ok);
    } else if s.io.writer.WStopped? {
      StopKeepsConserved(s, ok);
    }
  }

  lemma WriterKeepsFatesInOrder(s: State, ok: bool)
    requires FatesInOrder(s) && Enabled(s, Writer(ok))
    ensures FatesInOrder(WriterNext(s, ok))
  {
  }

  lemma WriterKeepsLedger(s: State, ok: bool)
    requires Ledger(s) && Enabled(s, Writer(ok))
    ensures Ledger(WriterNext(s, ok))
  {
  }

  lemma WriterKeepsGenerationFd(s: State, ok: bool)
    requires GenerationFd(s) && Enabled(s, Writer(ok))
    ensures GenerationFd(WriterNext(s, ok))
  {
  }

  lemma WriterKeepsPhase(s: State, ok: bool)
    requires Phase(s) && Enabled(s, Writer(ok))
    ensures Phase(WriterNext(s, ok))
  {
  }

  /** The writer moves no one else, and its marker goes with its end. */
  lemma WriterFrame(s: State, ok: bool)
    requires Enabled(s, Writer(ok))
    ensures var t := WriterNext(s, ok);
      && t.ctl.at == s.ctl.at && t.ctl.detached == s.ctl.detached && t.running == s.running
      && t.io.reader == s.io.reader && t.io.fd == s.io.fd && t.io.live == s.io.live
      && t.io.markers == s.io.markers + (if t.io.writer.WDone? then 1 else 0)
  {
  }

  lemma WriterKeepsMarkers(s: State, ok: bool)
    requires Markers(s) && Enabled(s, Writer(ok))
    ensures Markers(WriterNext(s, ok))
  {
    WriterFrame(s, ok);
    var t := WriterNext(s, ok);
    assert DoneCount(t.io) - t.io.markers == DoneCount(s.io) - s.io.markers;
  }

  lemma WriterKeepsReceiver(s: State, ok: bool)
    requires Receiver(s) && Markers(s) && GenerationFd(s) && Enabled(s, Writer(ok))
    ensures Receiver(WriterNext(s, ok))
  {
  }

  lemma WriterKeepsWriterOk(s: State, ok: bool)
    requires WriterOk(s) && Phase(s) && Receiver(s) && Enabled(s, Writer(ok))
    ensures WriterOk(WriterNext(s, ok))
  {
  }

  lemma ReaderKeepsConserved(s: State, choice: ReaderChoice)
    requires Conserved(s) && Enabled(s, Reader(choice))
    ensures Conserved(ReaderNext(s, choice))
  {
  }

  lemma ReaderKeepsFatesInOrder(s: State, choice: ReaderChoice)
    requires FatesInOrder(s) && Enabled(s, Reader(choice))
    ensures FatesInOrder(ReaderNext(s, choice))
  {
  }

  lemma ReaderKeepsLedger(s: State, choice: ReaderChoice)
    requires Ledger(s) && Enabled(s, Reader(choice))
    ensures Ledger(ReaderNext(s, choice))
  {
  }

  lemma ReaderKeepsGenerationFd(s: State, choice: ReaderChoice)
    requires GenerationFd(s) && Enabled(s, Reader(choice))
    ensures GenerationFd(ReaderNext(s, choice))
  {
  }

  lemma ReaderKeepsPhase(s: State, choice: ReaderChoice)
    requires Phase(s) && Enabled(s, Reader(choice))
    ensures Phase(ReaderNext(s, choice))
  {
  }

  lemma ReaderKeepsMarkers(s: State, choice: ReaderChoice)
    requires Markers(s) && Enabled(s, Reader(choice))
    ensures Markers(ReaderNext(s, choice))
  {
  }

  lemma ReaderKeepsReceiver(s: State, choice: ReaderChoice)
    requires Receiver(s) && Enabled(s, Reader(choice))
    ensures Receiver(ReaderNext(s, choice))
  {
  }

  lemma ReaderKeepsWriterOk(s: State, choice: ReaderChoice)
    requires WriterOk(s) && Enabled(s, Reader(choice))
    ensures WriterOk(ReaderNext(s, choice))
  {
  }

  lemma AdvanceKeepsConserved(s: State)
    requires Conserved(s) && Receiver(s) && Markers(s) && ControlEnabled(s, Advance)
    ensures Conserved(AdvanceNext(s))
  {
    RealPacketsAppend(s.chan.queue, SENTINEL);
  }

  lemma ControlKeepsConserved(s: State, c: ControlStep)
    requires Conserved(s) && Receiver(s) && Markers(s) && ControlEnabled(s, c)
    ensures Conserved(ControlNext(s, c))
  {
    if c.Advance? {
      AdvanceKeepsConserved(s);
    }
  }

  lemma AdvanceKeepsFatesInOrder(s: State)
    requires FatesInOrder(s) && GenerationFd(s) && ControlEnabled(s, Advance)
    ensures FatesInOrder(AdvanceNext(s))
  {
    if s.ctl.at.SpawnIo? {
      LaterFdInOrder(s.fates, s.io.fd, s.io.failed, s.ctl.at.newFd);
    } else {
      AdvanceFrame(s);
    }
  }

  lemma AdvanceFrame(s: State)
    requires ControlEnabled(s, Advance) && !s.ctl.at.SpawnIo?
    ensures var t := AdvanceNext(s);
      t.fates == s.fates && t.io.fd == s.io.fd && t.io.failed == s.io.failed && t.io.writer == s.io.writer
  {
  }

  lemma ControlKeepsFatesInOrder(s: State, c: ControlStep)
    requires FatesInOrder(s) && GenerationFd(s) && ControlEnabled(s, c)
    ensures FatesInOrder(ControlNext(s, c))
  {
    if c.Advance? {
      AdvanceKeepsFatesInOrder(s);
    } else if c.WriterSpawnFails? {
      LaterFdInOrder(s.fates, s.io.fd, s.io.failed, s.ctl.at.newFd);
    }
  }

  lemma ControlKeepsLedger(s: State, c: ControlStep)
    requires Ledger(s) && GenerationFd(s) && ControlEnabled(s, c)
    ensures Ledger(ControlNext(s, c))
  {
    if c.Advance? {
      AdvanceKeepsLedger(s);
    }
  }

  lemma AdvanceKeepsLedger(s: State)
    requires Ledger(s) && GenerationFd(s) && ControlEnabled(s, Advance)
    ensures Ledger(AdvanceNext(s))
  {
    var t := AdvanceNext(s);
    if s.ctl.at.CloseOld? || s.ctl.at.CloseNew? || s.ctl.at.CloseLast? {
      assert Pending(t.ctl.at) == {};
    } else if s.ctl.at.SpawnIo? {
      assert Pending(t.ctl.at) == {s.ctl.tunFd} && Pending(s.ctl.at) == {t.ctl.tunFd};
    } else {
      assert Pending(t.ctl.at) == Pending(s.ctl.at);
    }
  }

  predicate StoppingIo(c: ControlPc) { c.ClearLive? || c.WakeReader? || c.SendSentinel? || c.Await? }

  lemma StopIoKeepsGenerationFd(s: State)
    requires GenerationFd(s) && StoppingIo(s.ctl.at) && ControlEnabled(s, Advance)
    ensures GenerationFd(AdvanceNext(s))
  {
  }

  lemma AdvanceKeepsGenerationFd(s: State)
    requires GenerationFd(s) && Receiver(s) && Ledger(s) && ControlEnabled(s, Advance)
    ensures GenerationFd(AdvanceNext(s))
  {
    if StoppingIo(s.ctl.at) {
      StopIoKeepsGenerationFd(s);
    }
  }

  lemma ControlKeepsGenerationFd(s: State, c: ControlStep)
    requires GenerationFd(s) && Receiver(s) && Ledger(s) && ControlEnabled(s, c)
    ensures GenerationFd(ControlNext(s, c))
  {
    if c.Advance? {
      AdvanceKeepsGenerationFd(s);
    }
  }

  lemma AdvanceKeepsPhase(s: State)
    requires Phase(s) && ControlEnabled(s, Advance)
    ensures Phase(AdvanceNext(s))
  {
  }

  lemma ControlKeepsPhase(s: State, c: ControlStep)
    requires Phase(s) && ControlEnabled(s, c)
    ensures Phase(ControlNext(s, c))
  {
    if c.Advance? {
      AdvanceKeepsPhase(s);
    }
  }

  lemma AdvanceKeepsMarkers(s: State)
    requires Markers(s) && GenerationFd(s) && ControlEnabled(s, Advance)
    ensures Markers(AdvanceNext(s))
  {
  }

  lemma ControlKeepsMarkers(s: State, c: ControlStep)
    requires Markers(s) && GenerationFd(s) && ControlEnabled(s, c)
    ensures Markers(ControlNext(s, c))
  {
    if c.Advance? {
      AdvanceKeepsMarkers(s);
    }
  }

  lemma AdvanceKeepsReceiver(s: State)
    requires Receiver(s) && Markers(s) && ControlEnabled(s, Advance)
    ensures Receiver(AdvanceNext(s))
  {
  }

  lemma ControlKeepsReceiver(s: State, c: ControlStep)
    requires Receiver(s) && Markers(s) && ControlEnabled(s, c)
    ensures Receiver(ControlNext(s, c))
  {
    if c.Advance? {
      AdvanceKeepsReceiver(s);
    }
  }

  lemma AdvanceKeepsWriterOk(s: State)
    requires WriterOk(s) && Phase(s) && Receiver(s) && Markers(s) && ControlEnabled(s, Advance)
    ensures WriterOk(AdvanceNext(s))
  {
  }

  lemma ControlKeepsWriterOk(s: State, c: ControlStep)
    requires WriterOk(s) && Phase(s) && Receiver(s) && Markers(s) && ControlEnabled(s, c)
    ensures WriterOk(ControlNext(s, c))
  {
    if c.Advance? {
      AdvanceKeepsWriterOk(s);
    }
  }

  lemma WriterKeepsInv(s: State, ok: bool)
    requires Inv(s) && Enabled(s, Writer(ok))
    ensures Inv(WriterNext(s, ok))
  {
    WriterKeepsConserved(s, ok);
    WriterKeepsFatesInOrder(s, ok);
    WriterKeepsLedger(s, ok);
    WriterKeepsGenerationFd(s, ok);
    WriterKeepsPhase(s, ok);
    WriterKeepsMarkers(s, ok);
    WriterKeepsReceiver(s, ok);
    WriterKeepsWriterOk(s, ok);
  }

  lemma ReaderKeepsInv(s: State, choice: ReaderChoice)
    requires Inv(s) && Enabled(s, Reader(choice))
    ensures Inv(ReaderNext(s, choice))
  {
    ReaderKeepsConserved(s, choice);
    ReaderKeepsFatesInOrder(s, choice);
    ReaderKeepsLedger(s, choice);
    ReaderKeepsGenerationFd(s, choice);
    ReaderKeepsPhase(s, choice);
    ReaderKeepsMarkers(s, choice);
    ReaderKeepsReceiver(s, choice);
    ReaderKeepsWriterOk(s, choice);
  }

  lemma ControlKeepsInv(s: State, c: ControlStep)
    requires Inv(s) && ControlEnabled(s, c)
    ensures Inv(ControlNext(s, c))
  {
    ControlKeepsConserved(s, c);
    ControlKeepsFatesInOrder(s, c);
    ControlKeepsLedger(s, c);
    ControlKeepsGenerationFd(s, c);
    ControlKeepsPhase(s, c);
    ControlKeepsMarkers(s, c);
    ControlKeepsReceiver(s, c);
    ControlKeepsWriterOk(s, c);
  }

  lemma StepKeepsInv(s: State, e: Event)
    requires Inv(s) && Enabled(s, e)
    ensures Inv(Next(s, e))
  {
    match e {
      case Send(p) => SendKeepsInv(s, p);
      case Writer(ok) => WriterKeepsInv(s, ok);
      case Reader(choice) => ReaderKeepsInv(s, choice);
      case Control(c) => ControlKeepsInv(s, c);
    }
  }

  lemma {:induction false} RunKeepsInv(s: State, es: seq<Event>, t: State)
    requires Inv(s) && Run(s, es, t)
    ensures Inv(t)
    decreases |es|
  {
    if es != [] {
      StepKeepsInv(s, es[0]);
      RunKeepsInv(Next(s, es[0]), es[1..], t);
    }
  }

  // ---------------------------------------------------------------------------------
  // Main results
  // ---------------------------------------------------------------------------------

  /** Every run: what was sent is what was taken for an fd, in order, then what is still on its way. */
  lemma Delivery(fd: nat, es: seq<Event>, t: State)
    requires Run(Initial(fd), es, t)
    ensures t.chan.sent == Taken(t.fates) + InFlight(t.io.writer) + RealPackets(t.chan.queue) + t.chan.lost
    ensures !t.chan.receiver.Dropped? ==> t.chan.lost == []
    ensures forall i, j :: 0 <= i < j < |t.fates| ==>
      t.fates[i].fd <= t.fates[j].fd && (!t.fates[i].written ==> t.fates[i].fd < t.fates[j].fd)
  {
    InvInitial(fd);
    RunKeepsInv(Initial(fd), es, t);
  }

  /** How many steps a writer that was told to stop may still take. */
  function StepsLeft(w: WriterPc): nat {
    match w
    case WRecv => 5
    case WWrite(_) => 4
    case WRunning => 3
    case WLive => 2
    case WStopped => 1
    case WDone => 0
  }

  /** The same for the reader, once woken. */
  function ReaderStepsLeft(r: ReaderPc): nat {
    match r
    case RRead => 6
    case RHandle => 5
    case RPoll => 4
    case RRunning => 3
    case RLive => 2
    case RStopped => 1
    case RDone => 0
  }

  /** A writer told to stop is never stuck in recv, and each of its steps brings it nearer its end. */
  lemma RetiringWriterAdvances(s: State, ok: bool)
    requires Inv(s) && s.io.asked && !s.io.writer.WDone?
    ensures Enabled(s, Writer(ok))
    ensures StepsLeft(WriterNext(s, ok).io.writer) < StepsLeft(s.io.writer)
    ensures WriterNext(s, ok).io.late <= 1
  {
    WriterKeepsWriterOk(s, ok);
  }

  /** No other thread undoes that: while the generation stands, only the writer moves its counter. */
  lemma RetirementIsNotUndone(s: State, e: Event)
    requires Inv(s) && s.io.asked && Enabled(s, e) && !e.Writer?
    ensures var t := Next(s, e);
      (t.io.asked && t.io.writer == s.io.writer && t.io.fd == s.io.fd) || ThreadsDone(s.io)
  {
  }

  lemma RetiringReaderAdvances(s: State, choice: ReaderChoice)
    requires Inv(s) && s.io.asked && !s.io.reader.RDone?
    ensures Enabled(s, Reader(choice))
    ensures ReaderStepsLeft(ReaderNext(s, choice).io.reader) < ReaderStepsLeft(s.io.reader)
  {
  }

  /** Sentinels, whoever left them, stop no writer that is live: only the flags or a failed write do. */
  lemma LiveWriterKeepsRunning(fd: nat, es: seq<Event>, t: State)
    requires Run(Initial(fd), es, t)
    requires t.running && t.io.live && !t.io.failed && t.chan.receiver.AtWriter?
    ensures !t.io.writer.WStopped? && !t.io.writer.WDone?
    ensures t.io.late == 0
  {
    InvInitial(fd);
    RunKeepsInv(Initial(fd), es, t);
  }

  /** At most one packet goes to an fd whose generation was retired. */
  lemma AtMostOneLateWrite(fd: nat, es: seq<Event>, t: State)
    requires Run(Initial(fd), es, t)
    ensures t.io.late <= 1
  {
    InvInitial(fd);
    RunKeepsInv(Initial(fd), es, t);
  }

  predicate Detaches(e: Event) {
    e == Control(TimesOut) || e == Control(BridgeFails)
  }

  lemma {:induction false} OnlyDetachingDetaches(s: State, es: seq<Event>, t: State)
    requires Run(s, es, t) && !s.ctl.detached
    requires forall i :: 0 <= i < |es| ==> !Detaches(es[i])
    ensures !t.ctl.detached
    decreases |es|
  {
    if es != [] {
      var n := Next(s, es[0]);
      assert !Detaches(es[0]);
      assert !n.ctl.detached;
      OnlyDetachingDetaches(n, es[1..], t);
    }
  }

  lemma AttachedIsSafe(s: State)
    requires Inv(s) && !s.ctl.detached
    ensures FdSafe(s)
  {
  }

  /** Abandoned threads that still run are on the fd the engine will close last. */
  ghost predicate DetachedFd(s: State) {
    s.ctl.detached && !ThreadsDone(s.io) ==> s.io.fd == s.ctl.tunFd
  }

  lemma StepKeepsDetachedFd(s: State, e: Event)
    requires DetachedFd(s) && GenerationFd(s) && Markers(s) && Enabled(s, e)
    ensures DetachedFd(Next(s, e))
  {
  }

  lemma {:induction false} RunKeepsDetachedFd(s: State, es: seq<Event>, t: State)
    requires Inv(s) && DetachedFd(s) && Run(s, es, t)
    ensures DetachedFd(t)
    decreases |es|
  {
    if es != [] {
      StepKeepsDetachedFd(s, es[0]);
      StepKeepsInv(s, es[0]);
      RunKeepsDetachedFd(Next(s, es[0]), es[1..], t);
    }
  }

  lemma SafeIff(s: State)
    requires Inv(s) && DetachedFd(s)
    ensures FdSafe(s) <==> (s.ctl.at.Ended? ==> ThreadsDone(s.io))
  {
    if !s.ctl.detached {
      AttachedIsSafe(s);
    }
  }

  /** In every run, whatever times out or fails: the fd under a running thread is open exactly until the last close,
      unless both threads are done by then. */
  lemma FdSafetyIff(fd: nat, es: seq<Event>, t: State)
    requires Run(Initial(fd), es, t)
    ensures FdSafe(t) <==> (t.ctl.at.Ended? ==> ThreadsDone(t.io))
  {
    InvInitial(fd);
    RunKeepsInv(Initial(fd), es, t);
    RunKeepsDetachedFd(Initial(fd), es, t);
    SafeIff(t);
  }

  /** No stop timed out and the bridge came up: no thread is at a closed fd, and no dup is leaked. */
  lemma FdSafety(fd: nat, es: seq<Event>, t: State)
    requires Run(Initial(fd), es, t)
    requires forall i :: 0 <= i < |es| ==> !Detaches(es[i])
    ensures FdSafe(t)
    ensures t.ctl.at.Idle? || t.ctl.at.FdLess? ==> t.ctl.fds == {t.ctl.tunFd}
    ensures t.ctl.at.Ended? ==> t.ctl.fds == {}
  {
    InvInitial(fd);
    RunKeepsInv(Initial(fd), es, t);
    OnlyDetachingDetaches(Initial(fd), es, t);
    AttachedIsSafe(t);
  }

  ghost predicate NoneDetaches(es: seq<Event>) {
    forall i :: 0 <= i < |es| ==> !Detaches(es[i])
  }

  /** It can still come to a closed fd under a thread, with no further timeout or failed bridge. */
  ghost predicate MayTurnUnsafe(s: State) {
    exists es, t :: Run(s, es, t) && NoneDetaches(es) && !FdSafe(t)
  }

  lemma TurnsUnsafeBy(s: State, es: seq<Event>, t: State)
    requires Run(s, es, t) && NoneDetaches(es) && !FdSafe(t)
    ensures MayTurnUnsafe(s)
  {
  }

  lemma {:induction false} DoneStays(s: State, es: seq<Event>, t: State)
    requires Inv(s) && s.ctl.detached && ThreadsDone(s.io) && Run(s, es, t)
    ensures ThreadsDone(t.io)
    decreases |es|
  {
    if es != [] {
      StepKeepsInv(s, es[0]);
      DoneStays(Next(s, es[0]), es[1..], t);
    }
  }

  function ClosesLeft(c: ControlPc): nat {
    match c
    case CloseNew(_) => 3
    case FdLess => 2
    case CloseLast => 1
    case _ => 0
  }

  lemma CloseStep(s: State) returns (c: ControlStep)
    requires s.ctl.detached && Retired(s.ctl.at) && !s.ctl.at.Ended?
    ensures ControlEnabled(s, c) && !Detaches(Control(c))
    ensures var n := ControlNext(s, c); n.ctl.detached && n.io == s.io && ClosesLeft(n.ctl.at) < ClosesLeft(s.ctl.at)
  {
    c := if s.ctl.at.FdLess? then BeginStop else ControlStep.Advance;
  }

  lemma EndedUnsafe(s: State)
    requires Ledger(s) && s.ctl.at.Ended? && !ThreadsDone(s.io)
    ensures !FdSafe(s)
  {
  }

  /** The engine's remaining steps, while the abandoned threads stay where they are. */
  lemma {:induction false} CloseOut(s: State) returns (es: seq<Event>, t: State)
    requires Inv(s) && s.ctl.detached && !ThreadsDone(s.io)
    ensures Run(s, es, t) && NoneDetaches(es) && !FdSafe(t)
    decreases ClosesLeft(s.ctl.at)
  {
    if s.ctl.at.Ended? {
      EndedUnsafe(s);
      es, t := [], s;
    } else {
      var c := CloseStep(s);
      ControlKeepsInv(s, c);
      es, t := CloseOut(ControlNext(s, c));
      RunAfter(s, Control(c), es, t);
      es := [Control(c)] + es;
    }
  }

  /** That is so exactly if a thread was abandoned and still runs. */
  lemma MayTurnUnsafeIff(fd: nat, es: seq<Event>, s: State)
    requires Run(Initial(fd), es, s)
    ensures MayTurnUnsafe(s) <==> s.ctl.detached && !ThreadsDone(s.io)
  {
    InvInitial(fd);
    RunKeepsInv(Initial(fd), es, s);
    if MayTurnUnsafe(s) {
      var more, t :| Run(s, more, t) && NoneDetaches(more) && !FdSafe(t);
      RunKeepsInv(s, more, t);
      if !s.ctl.detached {
        OnlyDetachingDetaches(s, more, t);
        AttachedIsSafe(t);
      } else if ThreadsDone(s.io) {
        DoneStays(s, more, t);
      }
    }
    if s.ctl.detached && !ThreadsDone(s.io) {
      var more, t := CloseOut(s);
      TurnsUnsafeBy(s, more, t);
    }
  }

  /** A stop that times out may close the fd under a reader in poll(). */
  lemma TimeoutBreaksFdSafety(fd: nat) returns (es: seq<Event>, t: State)
    ensures Run(Initial(fd), es, t)
    ensures t.io.reader.RPoll? && t.io.fd !in t.ctl.fds
  {
    var up := [Reader(Proceed), Reader(Proceed), Control(BridgeUp), Control(BeginStop)];
    var m := After(Initial(fd), up);
    assert Run(Initial(fd), up, m) && m.io.reader.RPoll? && m.ctl.at == ClearLive(Shutdown) && m.ctl.fds == {m.io.fd}
      && m.ctl.tunFd == m.io.fd;
    var down;
    down, t := GiveUp(m);
    RunConcat(Initial(fd), up, m, down, t);
    es := up + down;
  }

  /** The rest of that run: flag, wake and sentinel, then no one waits for the reader. */
  lemma GiveUp(m: State) returns (es: seq<Event>, t: State)
    requires m.ctl.at == ClearLive(Shutdown) && m.ctl.fds == {m.ctl.tunFd}
    ensures Run(m, es, t)
    ensures t.io.reader == m.io.reader && t.io.fd == m.io.fd && t.ctl.fds == {}
  {
    es := [Control(Advance), Control(Advance), Control(Advance), Control(TimesOut), Control(Advance)];
    t := After(m, es);
  }

  /** A bridge that cannot be spawned closes the fd under the running threads. */
  lemma BridgeFailureBreaksFdSafety(fd: nat) returns (es: seq<Event>, t: State)
    ensures Run(Initial(fd), es, t)
    ensures t.io.reader.RPoll? && t.io.fd !in t.ctl.fds
  {
    es := [Reader(Proceed), Reader(Proceed), Control(BridgeFails), Control(Advance)];
    t := After(Initial(fd), es);
  }
}
