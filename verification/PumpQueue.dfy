/** What becomes of the packets that are queued while a generation is retired. */
module PumpQueue {
  import opened PumpProtocol

  // ---------------------------------------------------------------------------------
  // The retired generation
  // ---------------------------------------------------------------------------------

  /** Sent, and not taken for an fd yet. */
  function Waiting(s: State): seq<Packet> { InFlight(s.io.writer) + RealPackets(s.chan.queue) }

  /** Of those, what a writer without its flag still takes: the packet in hand, or the one it is receiving. */
  function LastTake(s: State): seq<Packet> {
    if s.io.writer.WWrite? then [s.io.writer.pkt]
    else if s.io.writer.WRecv? && s.chan.queue != [] && s.chan.queue[0] != SENTINEL then [s.chan.queue[0]]
    else []
  }

  /** How many it can still take, whatever is sent meanwhile. */
  function Room(s: State): nat {
    if s.io.writer.WWrite? || (s.io.writer.WRecv? && !(s.chan.queue != [] && s.chan.queue[0] == SENTINEL)) then 1 else 0
  }

  lemma AdvanceMovesFd(s: State)
    requires GenerationFd(s) && ControlEnabled(s, Advance)
    ensures var t := AdvanceNext(s);
      if s.ctl.at.SpawnIo? then s.io.fd < t.io.fd else t.io.fd == s.io.fd && (t.io.live ==> s.io.live)
  {
  }

  lemma FdGrows(s: State, e: Event)
    requires GenerationFd(s) && Enabled(s, e)
    ensures s.io.fd <= Next(s, e).io.fd
    ensures Next(s, e).io.fd == s.io.fd && !s.io.live ==> !Next(s, e).io.live
  {
    if e == Control(Advance) {
      AdvanceMovesFd(s);
    }
  }

  lemma {:induction false} RunFdGrows(s: State, es: seq<Event>, t: State)
    requires Inv(s) && Run(s, es, t)
    ensures s.io.fd <= t.io.fd
    decreases |es|
  {
    if es != [] {
      FdGrows(s, es[0]);
      StepKeepsInv(s, es[0]);
      RunFdGrows(Next(s, es[0]), es[1..], t);
    }
  }

  lemma WriterTakes(s: State, ok: bool)
    requires !s.io.live && Enabled(s, Writer(ok))
    ensures var n := WriterNext(s, ok);
      Taken(s.fates) + LastTake(s) == Taken(n.fates) + LastTake(n) && |n.fates| + Room(n) <= |s.fates| + Room(s)
  {
    if s.io.writer.WWrite? {
      TakenAppend(s.fates, Fate(s.io.writer.pkt, s.io.fd, ok));
    }
  }

  /** Nobody else takes a packet; what is sent may fill the writer's room. */
  lemma OthersTakeNothing(s: State, e: Event)
    requires Markers(s) && Receiver(s) && GenerationFd(s) && Enabled(s, e) && !e.Writer? && Next(s, e).io.fd == s.io.fd
    ensures var n := Next(s, e); n.fates == s.fates && LastTake(s) <= LastTake(n) && Room(n) <= Room(s)
  {
    OthersKeepHead(s, e);
  }

  /** The writer stays where it is, and what it is about to receive stays first in the channel. */
  lemma OthersKeepHead(s: State, e: Event)
    requires Markers(s) && Receiver(s) && GenerationFd(s) && Enabled(s, e) && !e.Writer? && Next(s, e).io.fd == s.io.fd
    ensures var n := Next(s, e);
      n.fates == s.fates && n.io.writer == s.io.writer && (!s.io.writer.WDone? ==> s.chan.queue <= n.chan.queue)
  {
    if e == Control(Advance) {
      AdvanceMovesFd(s);
      AdvanceKeepsHead(s);
    } else if e.Control? {
      ControlKeepsHead(s, e.step);
    }
  }

  lemma AdvanceKeepsHead(s: State)
    requires Markers(s) && ControlEnabled(s, Advance) && !s.ctl.at.SpawnIo?
    ensures var n := AdvanceNext(s);
      n.fates == s.fates && n.io.writer == s.io.writer && (!s.io.writer.WDone? ==> s.chan.queue <= n.chan.queue)
  {
  }

  lemma ControlKeepsHead(s: State, c: ControlStep)
    requires Markers(s) && GenerationFd(s) && ControlEnabled(s, c) && !c.Advance? && ControlNext(s, c).io.fd == s.io.fd
    ensures var n := ControlNext(s, c);
      n.fates == s.fates && n.io.writer == s.io.writer && (!s.io.writer.WDone? ==> s.chan.queue <= n.chan.queue)
  {
  }

  lemma StepTakes(s: State, e: Event)
    requires Inv(s) && !s.io.live && Enabled(s, e) && Next(s, e).io.fd == s.io.fd
    ensures var n := Next(s, e);
      Taken(s.fates) + LastTake(s) <= Taken(n.fates) + LastTake(n) && |n.fates| + Room(n) <= |s.fates| + Room(s)
  {
    if e.Writer? {
      WriterTakes(s, e.writeOk);
    } else {
      OthersTakeNothing(s, e);
    }
  }

  lemma {:induction false} RunTakes(s: State, es: seq<Event>, t: State)
    requires Inv(s) && !s.io.live && Run(s, es, t) && t.io.fd == s.io.fd
    ensures Taken(s.fates) + LastTake(s) <= Taken(t.fates) + LastTake(t)
    ensures |t.fates| + Room(t) <= |s.fates| + Room(s)
    decreases |es|
  {
    if es != [] {
      var n := Next(s, es[0]);
      StepKeepsInv(s, es[0]);
      FdGrows(s, es[0]);
      RunFdGrows(n, es[1..], t);
      StepTakes(s, es[0]);
      RunTakes(n, es[1..], t);
    }
  }

  lemma WaitingFits(s: State)
    requires |Waiting(s)| <= Room(s)
    ensures Waiting(s) == LastTake(s)
  {
  }

  /** From the clearing of its flag on, a generation writes what was waiting exactly if that is no more than the one
      packet its writer is already at. */
  lemma QueuedWrittenIff(fd: nat, es: seq<Event>, s: State, more: seq<Event>, t: State)
    requires Run(Initial(fd), es, s) && !s.io.live
    requires Run(s, more, t) && t.io.fd == s.io.fd && t.io.writer.WDone?
    ensures Taken(s.fates) + Waiting(s) <= Taken(t.fates) <==> Waiting(s) == LastTake(s)
    ensures |t.fates| <= |s.fates| + 1
  {
    InvInitial(fd);
    RunKeepsInv(Initial(fd), es, s);
    RunTakes(s, more, t);
    assert Taken(t.fates) + LastTake(t) == Taken(t.fates);
    if Taken(s.fates) + Waiting(s) <= Taken(t.fates) {
      WaitingFits(s);
    }
  }

  lemma NothingOnItsWay(s: State)
    requires Conserved(s) && Receiver(s) && s.chan.receiver.Dropped?
    ensures s.chan.sent == Taken(s.fates) + s.chan.lost
  {
    assert InFlight(s.io.writer) == [] && RealPackets(s.chan.queue) == [];
    assert Taken(s.fates) + [] + [] == Taken(s.fates);
  }

  /** Once the receiver is gone, so is all that no writer took. */
  lemma RestIsLost(fd: nat, es: seq<Event>, t: State)
    requires Run(Initial(fd), es, t) && t.chan.receiver.Dropped?
    ensures t.chan.sent == Taken(t.fates) + t.chan.lost
  {
    InvInitial(fd);
    RunKeepsInv(Initial(fd), es, t);
    NothingOnItsWay(t);
  }

  // ---------------------------------------------------------------------------------
  // The next generation
  // ---------------------------------------------------------------------------------

  /** A writer that goes on, with the channel's receiver. */
  predicate Live(s: State) {
    s.running && s.io.live && !s.io.failed && s.chan.receiver.AtWriter?
  }

  /** How many steps it may take to drain the channel. */
  function DrainLeft(s: State): nat {
    4 * |s.chan.queue| +
    match s.io.writer
    case WWrite(_) => 3
    case WRunning => 2
    case WLive => 1
    case _ => 0
  }

  lemma WriterDrains(s: State, ok: bool)
    requires Live(s) && Enabled(s, Writer(ok)) && !s.io.writer.WStopped?
    ensures DrainLeft(WriterNext(s, ok)) < DrainLeft(s)
  {
  }

  /** A live writer is stuck on an empty channel only, and each of its steps brings it nearer to one. */
  lemma LiveWriterDrains(s: State, ok: bool)
    requires Inv(s) && Live(s)
    ensures Enabled(s, Writer(ok)) <==> 0 < DrainLeft(s)
    ensures 0 < DrainLeft(s) ==> DrainLeft(WriterNext(s, ok)) < DrainLeft(s)
  {
    if Enabled(s, Writer(ok)) {
      WriterDrains(s, ok);
    }
  }

  /** No one else sets it back but a sender, as long as it is live. */
  lemma OthersKeepDraining(s: State, e: Event)
    requires Inv(s) && Live(s) && Enabled(s, e) && !e.Writer? && !e.Send? && Live(Next(s, e))
    ensures DrainLeft(Next(s, e)) == DrainLeft(s) && Next(s, e).io.fd == s.io.fd && Next(s, e).fates == s.fates
  {
  }

  function WrittenTo(fd: nat, packets: seq<Packet>): seq<Fate> {
    seq(|packets|, i requires 0 <= i < |packets| => Fate(packets[i], fd, true))
  }

  lemma WriterDelivers(s: State)
    requires Live(s) && Enabled(s, Writer(true)) && !s.io.writer.WStopped?
    ensures var n := WriterNext(s, true);
      && Live(n) && n.ctl == s.ctl && n.io.fd == s.io.fd
      && n.fates + WrittenTo(n.io.fd, Waiting(n)) == s.fates + WrittenTo(s.io.fd, Waiting(s))
  {
    var n := WriterNext(s, true);
    if s.io.writer.WWrite? {
      assert Waiting(s) == [s.io.writer.pkt] + Waiting(n);
    } else {
      assert Waiting(s) == Waiting(n);
    }
  }

  /** Left alone, it writes all that waits to its fd, in order. */
  lemma {:induction false} DrainRun(s: State) returns (es: seq<Event>, t: State)
    requires Inv(s) && Live(s)
    ensures Run(s, es, t) && t.ctl == s.ctl && t.chan.queue == []
    ensures t.fates == s.fates + WrittenTo(s.io.fd, Waiting(s))
    decreases DrainLeft(s)
  {
    if Enabled(s, Writer(true)) {
      LiveWriterDrains(s, true);
      WriterDelivers(s);
      WriterKeepsInv(s, true);
      var n := WriterNext(s, true);
      es, t := DrainRun(n);
      RunAfter(s, Writer(true), es, t);
      es := [Writer(true)] + es;
    } else {
      LiveWriterDrains(s, true);
      es, t := [], s;
    }
  }

  // ---------------------------------------------------------------------------------
  // Two packets queued before a stop
  // ---------------------------------------------------------------------------------

  /** A generation about to look at its flag, with two packets queued. */
  function TwoQueued(fd: nat, p: Packet, q: Packet): State {
    Initial(fd).(chan := Channel([p, q], AtWriter, [p, q], []),
                 io := NewIo(fd).(reader := RLive, writer := WLive),
                 ctl := Initial(fd).ctl.(at := Idle))
  }

  lemma ReachTwoQueued(fd: nat, p: Packet, q: Packet) returns (es: seq<Event>)
    requires p != SENTINEL && q != SENTINEL
    ensures Run(Initial(fd), es, TwoQueued(fd, p, q))
  {
    var up := [Writer(true), Reader(Proceed), Control(BridgeUp)];
    var s := After(Initial(fd), up);
    var m := Next(s, Send(p));
    var t := Next(m, Send(q));
    assert [] + [p] + [q] == [p, q];
    assert t == TwoQueued(fd, p, q);
    RunAfter(m, Send(q), [], t);
    RunAfter(s, Send(p), [Send(q)] + [], t);
    es := [Send(p)] + ([Send(q)] + []);
    RunConcat(Initial(fd), up, s, es, t);
    es := up + es;
  }

  /** Both threads find the flag cleared and end. */
  lemma ThreadsEnd(s: State) returns (es: seq<Event>, t: State)
    requires s.io.writer.WLive? && s.io.reader.RLive? && !s.io.live && !s.ctl.detached
    ensures Run(s, es, t)
    ensures t == s.(io := s.io.(writer := WDone, reader := RDone, markers := s.io.markers + 2))
  {
    es := [Writer(true), Writer(true), Reader(Proceed), Reader(Proceed)];
    t := After(s, es);
  }

  lemma ClearFlag(s: State) returns (es: seq<Event>, t: State)
    requires s.ctl.at.ClearLive?
    ensures Run(s, es, t) && t == HolderAt(s.(io := s.io.(live := false)), WakeReader(s.ctl.at.why))
  {
    es := [Control(Advance)];
    t := After(s, es);
  }

  /** Wake and sentinel. */
  lemma SentinelSent(s: State) returns (es: seq<Event>, t: State)
    requires s.ctl.at.WakeReader? && s.chan.receiver.AtWriter?
    ensures Run(s, es, t)
    ensures t.ctl.at == Await(s.ctl.at.why, 2) && t.io.markers == s.io.markers && t.chan.receiver.AtWriter?
    ensures t.fates == s.fates && t.chan.sent == s.chan.sent && t.running == s.running
    ensures t.chan.queue == s.chan.queue + [SENTINEL]
  {
    es := [Control(Advance), Control(Advance)];
    t := After(s, es);
  }

  lemma MarkersTaken(s: State) returns (es: seq<Event>, t: State)
    requires s.ctl.at.Await? && s.ctl.at.left == 2 && s.io.markers == 2
    ensures Run(s, es, t)
    ensures t.fates == s.fates && t.chan.sent == s.chan.sent && t.running == s.running
    ensures s.ctl.at.why.Swap? ==> t.ctl.at == SpawnIo(s.ctl.at.why.newFd) && t.chan.queue == s.chan.queue
    ensures s.ctl.at.why.Shutdown? ==> t.ctl.at.CloseLast? && t.chan.receiver.Dropped?
  {
    es := [Control(Advance), Control(Advance)];
    t := After(s, es);
  }

  lemma SpawnDone(s: State) returns (es: seq<Event>, t: State)
    requires s.ctl.at.SpawnIo?
    ensures Run(s, es, t)
    ensures t.ctl.at.Idle? && t.io == NewIo(s.ctl.at.newFd) && t.fates == s.fates && t.chan.sent == s.chan.sent
    ensures t.chan.queue == s.chan.queue && t.chan.receiver.AtWriter? && t.running == s.running
  {
    es := [Control(Advance), Control(Advance)];
    t := After(s, es);
  }

  /** The flag cleared, both threads at their end, wake and sentinel sent and both markers taken. */
  lemma StopRun(s: State) returns (es: seq<Event>, t: State)
    requires s.ctl.at.ClearLive? && s.io.writer.WLive? && s.io.reader.RLive? && s.io.markers == 0
    requires !s.ctl.detached && s.chan.receiver.AtWriter?
    ensures Run(s, es, t)
    ensures t.fates == s.fates && t.chan.sent == s.chan.sent && t.running == s.running
    ensures s.ctl.at.why.Swap? ==> t.ctl.at == SpawnIo(s.ctl.at.why.newFd) && t.chan.queue == s.chan.queue + [SENTINEL]
    ensures s.ctl.at.why.Shutdown? ==> t.ctl.at.CloseLast? && t.chan.receiver.Dropped?
  {
    var clear, a := ClearFlag(s);
    var ending, b := ThreadsEnd(a);
    var sentinel, c := SentinelSent(b);
    es, t := MarkersTaken(c);
    RunConcat(b, sentinel, c, es, t);
    RunConcat(a, ending, b, sentinel + es, t);
    RunConcat(s, clear, a, ending + (sentinel + es), t);
    es := clear + (ending + (sentinel + es));
  }

  /** A swap during which neither is written: the retired generation ends with both in the channel. */
  lemma NotWrittenByRetired(fd: nat, p: Packet, q: Packet) returns (es: seq<Event>, t: State)
    requires p != SENTINEL && q != SENTINEL
    ensures Run(Initial(fd), es, t) && t.ctl.at.Idle?
    ensures t.chan.sent == [p, q] && t.fates == [] && t.chan.queue == [p, q, SENTINEL]
    ensures t.io == NewIo(fd + 1) && Live(t)
  {
    var up := ReachTwoQueued(fd, p, q);
    var s := TwoQueued(fd, p, q);
    var a := ControlNext(s, BeginSwap);
    var stop, b := StopRun(a);
    var spawn;
    spawn, t := SpawnDone(b);
    RunConcat(a, stop, b, spawn, t);
    RunAfter(s, Control(BeginSwap), stop + spawn, t);
    es := [Control(BeginSwap)] + (stop + spawn);
    RunConcat(Initial(fd), up, s, es, t);
    es := up + es;
    assert [p, q] + [SENTINEL] == [p, q, SENTINEL];
  }

  /** And both are written by the next one. */
  lemma WrittenByNext(fd: nat, p: Packet, q: Packet) returns (es: seq<Event>, t: State)
    requires p != SENTINEL && q != SENTINEL
    ensures Run(Initial(fd), es, t)
    ensures t.fates == [Fate(p, fd + 1, true), Fate(q, fd + 1, true)] && t.chan.queue == []
  {
    var first, s := NotWrittenByRetired(fd, p, q);
    InvInitial(fd);
    RunKeepsInv(Initial(fd), first, s);
    var drain;
    drain, t := DrainRun(s);
    RunConcat(Initial(fd), first, s, drain, t);
    es := first + drain;
    RealTwo(p, q);
    assert [] + [p, q] == [p, q];
  }

  lemma RealTwo(p: Packet, q: Packet)
    requires p != SENTINEL && q != SENTINEL
    ensures RealPackets([p, q, SENTINEL]) == [p, q]
  {
    assert [p, q, SENTINEL][1..] == [q, SENTINEL] && [q, SENTINEL][1..] == [SENTINEL] && [SENTINEL][1..] == [];
    assert RealPackets([SENTINEL]) == [];
    assert RealPackets([q, SENTINEL]) == [q];
  }

  /** A shutdown instead, with the same two: there is no next generation, and both are dropped. */
  lemma LostAtShutdown(fd: nat, p: Packet, q: Packet) returns (es: seq<Event>, t: State)
    requires p != SENTINEL && q != SENTINEL
    ensures Run(Initial(fd), es, t) && t.ctl.at.CloseLast?
    ensures t.chan.sent == [p, q] && t.fates == [] && t.chan.lost == [p, q]
  {
    var up := ReachTwoQueued(fd, p, q);
    var s := TwoQueued(fd, p, q);
    var a := ControlNext(s, BeginStop);
    var stop;
    stop, t := StopRun(a);
    RunAfter(s, Control(BeginStop), stop, t);
    es := [Control(BeginStop)] + stop;
    RunConcat(Initial(fd), up, s, es, t);
    es := up + es;
    RestIsLost(fd, es, t);
    assert [] + t.chan.lost == t.chan.lost;
  }
}
