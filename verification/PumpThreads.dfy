/** The pump's threads as they are written, each with whatever the others do between its accesses. */
module PumpThreads {
  import opened Bytes
  import opened PumpProtocol

  datatype Role = TheWriter | TheReader | TheController

  predicate Of(role: Role, e: Event) {
    match role
    case TheWriter => e.Writer?
    case TheReader => e.Reader?
    case TheController => e.Control?
  }

  /** What the others leave alone while a thread is not through. */
  predicate Leaves(role: Role, s: State, t: State) {
    match role
    case TheWriter => !s.io.writer.WDone? ==> t.io.writer == s.io.writer && t.io.fd == s.io.fd
    case TheReader => !s.io.reader.RDone? ==> t.io.reader == s.io.reader && t.io.fd == s.io.fd
    case TheController =>
      && t.ctl == s.ctl && t.running == s.running
      && t.io.fd == s.io.fd && t.io.live == s.io.live && t.io.woken == s.io.woken && t.io.asked == s.io.asked
  }

  lemma OthersLeave(role: Role, s: State, e: Event)
    requires GenerationFd(s) && Markers(s) && Enabled(s, e) && !Of(role, e)
    ensures Leaves(role, s, Next(s, e))
  {
    if e == Control(Advance) {
      AdvanceLeaves(s);
    } else if e.Control? {
      ControlLeaves(s, e.step);
    }
  }

  lemma AdvanceLeaves(s: State)
    requires Markers(s) && ControlEnabled(s, Advance)
    ensures !ThreadsDone(s.io) ==> var t := AdvanceNext(s);
      t.io.writer == s.io.writer && t.io.reader == s.io.reader && t.io.fd == s.io.fd
  {
  }

  lemma ControlLeaves(s: State, c: ControlStep)
    requires Markers(s) && ControlEnabled(s, c) && !c.Advance?
    ensures !ThreadsDone(s.io) ==> var t := ControlNext(s, c);
      t.io.writer == s.io.writer && t.io.reader == s.io.reader && t.io.fd == s.io.fd
  {
  }

  /** How a swap's spawn_io goes. */
  datatype Spawn = BothUp | NoneUp | WriterFails

  /** What one round of the reader meets. */
  datatype Round = Round(poll: ReaderChoice, read: ReaderChoice, handed: ReaderChoice, meanwhile: seq<seq<Event>>)

  class Pump {
    const first: nat                 // the fd of the first generation
    var chan: Channel
    var running: bool
    var io: Io                       // the reader and writer on the current fd
    var ctl: Holder                  // the engine's side
    var fates: seq<Fate>
    ghost var trace: seq<Event>

    constructor (fd: nat)
      ensures Valid() && View() == Initial(fd)
    {
      first := fd;
      chan, running, io := Channel([], AtWriter, [], []), true, NewIo(fd);
      ctl := Holder(SpawningBridge, fd, {fd}, fd + 1, false);
      fates, trace := [], [];
    }

    function View(): State
      reads this
    {
      State(chan, running, io, ctl, fates)
    }

    /** All that happened is a run of the protocol. */
    ghost predicate Valid()
      reads this
    {
      Run(Initial(first), trace, View())
    }

    /** The fields are where `e` takes them from `v`. */
    ghost method Record(v: State, e: Event)
      requires Run(Initial(first), trace, v) && Enabled(v, e) && View() == Next(v, e)
      modifies this`trace
      ensures Valid()
    {
      RunThen(Initial(first), trace, v, e);
      trace := trace + [e];
    }

    lemma Invariant()
      requires Valid()
      ensures Inv(View()) && DetachedFd(View())
    {
      InvInitial(first);
      RunKeepsInv(Initial(first), trace, View());
      RunKeepsDetachedFd(Initial(first), trace, View());
    }

    // ---- the other threads ----

    method Perform(e: Event)
      requires Valid() && Enabled(View(), e)
      modifies this
      ensures Valid() && View() == Next(old(View()), e)
    {
      ghost var v := View();
      var n := Next(View(), e);
      chan, running, io, ctl, fates := n.chan, n.running, n.io, n.ctl, n.fates;
      Record(v, e);
    }

    /** What the others do meanwhile; what cannot happen is skipped. */
    method Others(role: Role, script: seq<Event>)
      requires Valid()
      modifies this
      ensures Valid() && Leaves(role, old(View()), View())
      ensures script == [] ==> View() == old(View())
    {
      for i := 0 to |script|
        invariant Valid() && Leaves(role, old(View()), View())
        invariant script == [] ==> View() == old(View())
      {
        if !Of(role, script[i]) && Enabled(View(), script[i]) {
          Invariant();
          OthersLeave(role, View(), script[i]);
          Perform(script[i]);
        }
      }
    }

    /** The k-th part of a script. */
    static function Part(script: seq<seq<Event>>, k: nat): (es: seq<Event>)
      ensures |script| <= k ==> es == []
    {
      if k < |script| then script[k] else []
    }

    // ---- the writer ----

    /** A look at `running`, then one at `live`. */
    method WriterLoads() returns (on: bool)
      requires Valid() && (io.writer.WRunning? || io.writer.WLive?)
      modifies this
      ensures Valid() && chan == old(chan)
      ensures on == if old(io).writer.WRunning? then old(running) else old(io).live
      ensures io == old(io).(writer := if !on then WStopped else if old(io).writer.WRunning? then WLive else WRecv)
    {
      ghost var v := View();
      on := if io.writer.WRunning? then running else io.live;
      io := io.(writer := if !on then WStopped else if io.writer.WRunning? then WLive else WRecv);
      Record(v, Writer(true));
    }

    /** Blocked in recv() for as long as the channel is empty and the script goes on. */
    method AwaitPacket(meanwhile: seq<seq<Event>>, from: nat) returns (k: nat)
      requires Valid() && io.writer.WRecv?
      modifies this
      ensures Valid() && io.writer.WRecv? && from < k
      ensures |meanwhile| <= from ==> chan == old(chan)
    {
      Others(TheWriter, Part(meanwhile, from));
      k := from + 1;
      while chan.queue == [] && k < |meanwhile|
        invariant Valid() && io.writer.WRecv? && from < k
        invariant |meanwhile| <= from ==> chan == old(chan)
      {
        Others(TheWriter, meanwhile[k]);
        k := k + 1;
      }
    }

    method Recv() returns (pkt: Packet)
      requires Valid() && io.writer.WRecv? && chan.queue != []
      modifies this
      ensures Valid() && pkt == old(chan.queue[0]) && chan.queue == old(chan.queue[1..])
      ensures io == old(io).(writer := if pkt == SENTINEL then WRunning else WWrite(pkt))
    {
      ghost var v := View();
      pkt := chan.queue[0];
      chan := chan.(queue := chan.queue[1..]);
      io := io.(writer := if |pkt| == 0 then WRunning else WWrite(pkt));
      Record(v, Writer(true));
    }

    method Write(writeOk: bool)
      requires Valid() && io.writer.WWrite?
      modifies this
      ensures Valid() && chan == old(chan) && io.writer == if writeOk then WRunning else WStopped
      ensures fates == old(fates) + [Fate(old(io.writer.pkt), old(io.fd), writeOk)]
    {
      ghost var v := View();
      fates := fates + [Fate(io.writer.pkt, io.fd, writeOk)];
      io := io.(writer := if writeOk then WRunning else WStopped,
                failed := io.failed || !writeOk,
                late := io.late + if io.live then 0 else 1);
      Record(v, Writer(writeOk));
    }

    /** Its marker, and its receiver to whoever joins it. */
    method WriterEnds()
      requires Valid() && io.writer.WStopped?
      modifies this
      ensures Valid() && io.writer.WDone?
    {
      ghost var v := View();
      io := io.(markers := io.markers + 1, writer := WDone);
      if ctl.detached {
        chan := DropReceiver(chan);
      }
      Record(v, Writer(true));
    }

    /** The thread from its start; false if it is still in recv() when the script is over. */
    method WriterThread(meanwhile: seq<seq<Event>>, writeOk: nat -> bool) returns (ended: bool)
      requires Valid() && io.writer.WRunning?
      modifies this
      ensures Valid() && if ended then io.writer.WDone? else io.writer.WRecv? && chan.queue == []
    {
      var k := 0;
      while true
        invariant Valid() && io.writer.WRunning?
        decreases if k < |meanwhile| then |meanwhile| - k else 0, |chan.queue|
      {
        Others(TheWriter, Part(meanwhile, k));
        var on := WriterLoads();
        if !on { break; }
        Others(TheWriter, Part(meanwhile, k + 1));
        on := WriterLoads();
        if !on { break; }
        k := AwaitPacket(meanwhile, k + 2);
        if chan.queue == [] {
          return false;
        }
        var pkt := Recv();
        if |pkt| == 0 { continue; }
        Others(TheWriter, Part(meanwhile, k));
        var ok := writeOk(k);
        Write(ok);
        if !ok { break; }
      }
      Others(TheWriter, Part(meanwhile, k));
      WriterEnds();
      ended := true;
    }

    // ---- the reader ----

    method ReaderMoves(choice: ReaderChoice)
      requires Valid() && !io.reader.RDone?
      modifies this
      ensures Valid() && io.reader == old(ReaderPcNext(View(), choice)) && io.writer == old(io.writer)
      ensures io.live == old(io.live) && io.woken == old(io.woken) && running == old(running) && ctl == old(ctl)
    {
      ghost var v := View();
      if io.reader.RStopped? {
        io := io.(markers := io.markers + 1);
      }
      io := io.(reader := ReaderPcNext(View(), choice));
      Record(v, Reader(choice));
    }

    /** Its looks at `running` and `live`. */
    method ReaderLooks(meanwhile: seq<Event>) returns (on: bool)
      requires Valid() && io.reader.RRunning?
      modifies this
      ensures Valid() && io.reader == if on then RPoll else RStopped
    {
      ReaderMoves(Proceed);
      if io.reader.RLive? {
        Others(TheReader, meanwhile);
        ReaderMoves(Proceed);
      }
      on := io.reader.RPoll?;
    }

    /** One round of run_reader; true if it comes round again. */
    method ReaderRound(r: Round) returns (again: bool)
      requires Valid() && io.reader.RRunning?
      modifies this
      ensures Valid() && io.reader == if again then RRunning else RStopped
    {
      var on := ReaderLooks(Part(r.meanwhile, 0));
      if !on {
        return false;
      }
      Others(TheReader, Part(r.meanwhile, 1));
      ReaderMoves(r.poll);
      if io.reader.RRead? {
        Others(TheReader, Part(r.meanwhile, 2));
        ReaderMoves(r.read);
      }
      if io.reader.RHandle? {
        Others(TheReader, Part(r.meanwhile, 3));
        ReaderMoves(r.handed);
      }
      again := io.reader.RRunning?;
    }

    /** The thread from its start; false if its rounds run out first. */
    method ReaderThread(rounds: seq<Round>) returns (ended: bool)
      requires Valid() && io.reader.RRunning?
      modifies this
      ensures Valid() && if ended then io.reader.RDone? else io.reader.RRunning?
    {
      for k := 0 to |rounds|
        invariant Valid() && io.reader.RRunning?
      {
        var again := ReaderRound(rounds[k]);
        Others(TheReader, Part(rounds[k].meanwhile, 4));
        if !again {
          ReaderMoves(Proceed);
          return true;
        }
      }
      ended := false;
    }

    // ---- swap_fd and join ----

    /** The generation's flag, its wake and the sentinel, then both markers; false if the wait was given up. */
    method StopIo(why: Purpose, meanwhile: seq<seq<Event>>, late: nat -> bool) returns (ok: bool)
      requires Valid() && ctl.at == ClearLive(why)
      modifies this
      ensures Valid() && running == old(running) && Stopped(why, old(ctl), ok)
    {
      ghost var v := View();
      io, ctl := io.(live := false), ctl.(at := WakeReader(why));
      Record(v, Control(Advance));
      Others(TheController, Part(meanwhile, 1));
      WakeAndSentinel(why, Part(meanwhile, 2));
      ok := AwaitMarkers(why, meanwhile, late);
    }

    method WakeAndSentinel(why: Purpose, meanwhile: seq<Event>)
      requires Valid() && ctl.at == WakeReader(why)
      modifies this
      ensures Valid() && running == old(running) && ctl == old(ctl).(at := Await(why, 2))
    {
      ghost var v := View();
      io, ctl := io.(woken := true), ctl.(at := SendSentinel(why));
      Record(v, Control(Advance));
      Others(TheController, meanwhile);
      v := View();
      if !chan.receiver.Dropped? {
        chan := chan.(queue := chan.queue + [SENTINEL]);
      }
      io, ctl := io.(asked := true), ctl.(at := Await(why, 2));
      Record(v, Control(Advance));
    }

    /** stop_io came back: with both threads joined, or with both abandoned. */
    ghost predicate Stopped(why: Purpose, before: Holder, ok: bool)
      reads this
    {
      && ctl == before.(
           at := if why.Shutdown? then CloseLast else if ok then SpawnIo(why.newFd) else CloseNew(why.newFd),
           detached := before.detached || !ok)
      && (ok ==> !ctl.detached && ThreadsDone(io))
    }

    method AwaitMarkers(why: Purpose, meanwhile: seq<seq<Event>>, late: nat -> bool) returns (ok: bool)
      requires Valid() && ctl.at == Await(why, 2)
      modifies this
      ensures Valid() && running == old(running) && Stopped(why, old(ctl), ok)
    {
      var left, k := 2, 3;
      while 0 < left
        invariant 0 <= left <= 2 && Valid() && running == old(running)
        invariant if left == 0 then Stopped(why, old(ctl), true) else ctl == old(ctl).(at := Await(why, left))
        decreases left
      {
        Others(TheController, Part(meanwhile, k));
        k := k + 1;
        while io.markers == 0 && k < |meanwhile|
          invariant Valid() && running == old(running) && ctl == old(ctl).(at := Await(why, left))
        {
          Others(TheController, meanwhile[k]);
          k := k + 1;
        }
        if io.markers == 0 || late(left) {
          TimeOut(why);
          return false;
        }
        TakeMarker(why, left);
        left := left - 1;
      }
      ok := true;
    }

    /** A marker received; after the second both threads are joined and the receiver is back. */
    method TakeMarker(why: Purpose, left: nat)
      requires Valid() && ctl.at == Await(why, left) && 0 < io.markers && 1 <= left
      modifies this
      ensures Valid() && running == old(running)
      ensures if 1 < left then ctl == old(ctl).(at := Await(why, left - 1)) else Stopped(why, old(ctl), true)
    {
      ghost var v := View();
      Invariant();
      io := io.(markers := io.markers - 1);
      if 1 < left {
        ctl := ctl.(at := Await(why, left - 1));
      } else if why.Swap? {
        chan, ctl := chan.(receiver := InHand), ctl.(at := SpawnIo(why.newFd));
      } else {
        chan, ctl := DropReceiver(chan), ctl.(at := CloseLast);
      }
      BothDone(v);
      Record(v, Control(Advance));
    }

    /** The handles dropped: both threads are on their own. */
    method TimeOut(why: Purpose)
      requires Valid() && ctl.at.Await? && ctl.at.why == why
      modifies this
      ensures Valid() && running == old(running) && Stopped(why, old(ctl), false)
    {
      ghost var v := View();
      ctl := ctl.(detached := true, at := if why.Swap? then CloseNew(why.newFd) else CloseLast);
      if io.writer.WDone? {
        chan := DropReceiver(chan);
      }
      Record(v, Control(TimesOut));
    }

    /** spawn_io came back: with both threads on the new fd, or with neither. */
    ghost predicate Spawned(newFd: nat, before: Holder, ok: bool)
      reads this
    {
      if ok then ctl == before.(tunFd := newFd, at := CloseOld(before.tunFd)) && io.fd == newFd && io.live
      else ctl == before.(at := CloseNew(newFd)) && ThreadsDone(io)
    }

    /** A reader and a writer on the new fd; a reader that came up alone is retired and joined. */
    method SpawnOn(newFd: nat, how: Spawn, choice: ReaderChoice, meanwhile: seq<seq<Event>>) returns (ok: bool)
      requires Valid() && ctl.at == SpawnIo(newFd)
      modifies this
      ensures Valid() && running == old(running) && Spawned(newFd, old(ctl), ok)
    {
      ghost var v := View();
      Invariant();
      ok := how.BothUp?;
      match how {
        case BothUp =>
          io, chan := NewIo(newFd), chan.(receiver := AtWriter);
          ctl := ctl.(at := CloseOld(ctl.tunFd), tunFd := newFd);
          Record(v, Control(Advance));
        case NoneUp =>
          chan, ctl := DropReceiver(chan), ctl.(at := CloseNew(newFd));
          Record(v, Control(SpawnFails));
        case WriterFails =>
          io, chan, ctl := NewIo(newFd).(writer := WDone), DropReceiver(chan), ctl.(at := RetireHalf(newFd));
          Record(v, Control(WriterSpawnFails));
          RetireReader(newFd, choice, meanwhile);
      }
    }

    method RetireReader(newFd: nat, choice: ReaderChoice, meanwhile: seq<seq<Event>>)
      requires Valid() && ctl.at == RetireHalf(newFd) && io.writer.WDone?
      modifies this
      ensures Valid() && running == old(running) && ctl == old(ctl).(at := CloseNew(newFd)) && ThreadsDone(io)
    {
      ghost var v := View();
      io, ctl := io.(live := false), ctl.(at := WakeHalf(newFd));
      Record(v, Control(Advance));
      Others(TheController, Part(meanwhile, 0));
      v := View();
      io, ctl := io.(woken := true), ctl.(at := JoinHalf(newFd));
      Record(v, Control(Advance));
      Others(TheController, Part(meanwhile, 1));
      JoinReader(newFd, choice);
    }

    /** The reader on its way out, waited for. */
    method JoinReader(newFd: nat, choice: ReaderChoice)
      requires Valid() && ctl.at == JoinHalf(newFd)
      modifies this
      ensures Valid() && running == old(running) && ctl == old(ctl).(at := CloseNew(newFd)) && ThreadsDone(io)
    {
      Invariant();
      while !io.reader.RDone?
        invariant Valid() && running == old(running) && ctl == old(ctl)
        invariant io.writer.WDone? && !io.live && io.woken
        decreases ReaderStepsLeft(io.reader)
      {
        ReaderMoves(choice);
      }
      ghost var v := View();
      ctl := ctl.(at := CloseNew(newFd));
      Record(v, Control(Advance));
    }

    /** The engine's close of a dup that no thread is left on, or whose threads were given up. */
    method CloseFd(fd: nat, after: ControlPc)
      requires Valid()
      requires match ctl.at
               case CloseOld(o) => fd == o && after.Idle?
               case CloseNew(n) => fd == n && after.FdLess?
               case CloseLast => fd == ctl.tunFd && after.Ended?
               case _ => false
      modifies this
      ensures Valid() && running == old(running) && io == old(io)
      ensures ctl == Closed(old(ctl), fd, after)
    {
      ghost var v := View();
      ctl := ctl.(fds := ctl.fds - {fd}, at := after);
      Record(v, Control(Advance));
    }

    /** The engine's dup, swap_fd, and the close of whichever fd is not in use after it. */
    method SwapFd(meanwhile: seq<seq<Event>>, late: nat -> bool, how: Spawn, choice: ReaderChoice,
                  after: seq<seq<Event>>)
        returns (ok: bool, newFd: nat)
      requires Valid() && ctl.at.Idle?
      modifies this
      ensures Valid() && newFd == old(ctl.nextFd) && running == old(running) && FdSafe(View())
      ensures ok ==> ctl.at.Idle? && ctl.tunFd == io.fd == newFd && io.live && ctl.fds == {newFd}
      ensures !ok ==> ctl.at.FdLess? && ctl.tunFd == old(ctl.tunFd) && ctl.fds == {ctl.tunFd}
    {
      newFd := ctl.nextFd;
      StartSwap();
      Others(TheController, Part(meanwhile, 0));
      ok := StopIo(Swap(newFd), meanwhile, late);
      Others(TheController, Part(after, 0));
      if ok {
        ok := SpawnOn(newFd, how, choice, if |after| < 2 then [] else after[2..]);
      }
      Others(TheController, Part(after, 1));
      CloseFd(if ok then ctl.at.oldFd else newFd, if ok then Idle else FdLess);
      Standing();
    }

    method StartSwap()
      requires Valid() && ctl.at.Idle?
      modifies this
      ensures Valid() && running == old(running)
      ensures ctl == old(ControlNext(View(), BeginSwap)).ctl
    {
      ghost var v := View();
      ctl := ctl.(fds := ctl.fds + {ctl.nextFd}, nextFd := ctl.nextFd + 1, at := ClearLive(Swap(ctl.nextFd)));
      Record(v, Control(BeginSwap));
    }

    /** What is so between two calls. */
    lemma Standing()
      requires Valid()
      ensures ctl.at.Idle? || ctl.at.FdLess? ==> ctl.fds == {ctl.tunFd} && FdSafe(View())
      ensures ctl.at.Ended? ==> ctl.fds == {} && (FdSafe(View()) <==> ThreadsDone(io))
      ensures !ctl.detached ==> FdSafe(View())
    {
      Invariant();
      SafeIff(View());
      if !ctl.detached {
        AttachedIsSafe(View());
      }
    }

    /** `running` cleared, and join. */
    method Join(meanwhile: seq<seq<Event>>, late: nat -> bool) returns (ok: bool)
      requires Valid() && (ctl.at.Idle? || ctl.at.FdLess?)
      modifies this
      ensures Valid() && ctl.at.CloseLast? && ctl.tunFd == old(ctl.tunFd) && !running
      ensures old(ctl.at).Idle? && ok ==> !ctl.detached && ThreadsDone(io)
    {
      ghost var v := View();
      var up := ctl.at.Idle?;
      running, ctl := false, ctl.(at := if up then ClearLive(Shutdown) else CloseLast);
      Record(v, Control(BeginStop));
      Others(TheController, Part(meanwhile, 0));
      ok := true;
      if up {
        ok := StopIo(Shutdown, meanwhile, late);
      }
    }

    /** The engine's join of its pump and the close of the fd behind it. */
    method Stop(meanwhile: seq<seq<Event>>, late: nat -> bool, after: seq<Event>) returns (ok: bool)
      requires Valid() && (ctl.at.Idle? || ctl.at.FdLess?)
      modifies this
      ensures Valid() && ctl.at.Ended? && ctl.fds == {} && (FdSafe(View()) <==> ThreadsDone(io))
      ensures old(ctl.at).Idle? && ok ==> FdSafe(View())
    {
      ok := Join(meanwhile, late);
      Others(TheController, after);
      CloseFd(ctl.tunFd, Ended);
      Standing();
    }

    /** The bridge's spawn; without it the generation is dropped and the engine closes the fd. */
    method SpawnBridge(ok: bool, meanwhile: seq<Event>)
      requires Valid() && ctl.at.SpawningBridge?
      modifies this
      ensures Valid() && if ok then ctl.at.Idle? else ctl.at.Ended?
      ensures ok ==> FdSafe(View())
      ensures !ok ==> (FdSafe(View()) <==> ThreadsDone(io))
    {
      ghost var v := View();
      if ok {
        ctl := ctl.(at := Idle);
        Record(v, Control(BridgeUp));
      } else {
        ctl := ctl.(detached := true, at := CloseLast);
        Record(v, Control(BridgeFails));
        Others(TheController, meanwhile);
        CloseFd(ctl.tunFd, Ended);
      }
      Standing();
    }
  }

  /** Whoever waits for the last marker waits for two threads that are through. */
  lemma BothDone(s: State)
    requires Markers(s)
    ensures s.ctl.at.Await? && s.ctl.at.left == 1 && 0 < s.io.markers ==> ThreadsDone(s.io)
    ensures s.ctl.at.Await? ==> !s.ctl.detached
  {
  }
}
