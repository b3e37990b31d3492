/** The pipe's two threads as they are written, each with whatever the other does between its accesses. */
module RelayPipe {
  import opened Bytes
  import opened PipeProtocol

  /** How a read of the local connection returns. */
  datatype LocalRead = Got(bytes: seq<Byte>) | EndOfStream | Interrupted | Fails

  datatype Added = Counted | GaveUp | StillWaiting

  /** What one pass of the loop meets. */
  datatype Round = Round(
    stop: bool,                                     // stopped, restarted, or the egress failed
    phase: Phase, receiving: bool, bytes: seq<Byte>, room: nat,     // what polling brings
    sends: nat -> nat,                              // how much the socket takes, slice by slice
    receives: nat -> nat,
    writes: nat -> int,                             // how much the local side takes; negative: it fails
    deadline: bool,                                 // the relay did not answer in time
    outOfReach: bool,                               // what the wait brought says so, or that all senders are gone
    meanwhile: seq<seq<Event>>)

  datatype Thread = TheReader | TheLoop

  predicate Of(thread: Thread, e: Event) { OfReader(e) <==> thread.TheReader? }

  /** What a thread finds as it left it. */
  predicate Leaves(thread: Thread, s: State, t: State) {
    match thread
    case TheReader => t.up.reader == s.up.reader && t.up.input == s.up.input
    case TheLoop =>
      && t.pc == s.pc && t.done == s.done && t.down == s.down && t.localClosed == s.localClosed
      && t.closeSent == s.closeSent && t.up.toMesh == s.up.toMesh && t.up.firstLeft == s.up.firstLeft
      && s.up.channel <= t.up.channel
  }

  lemma OthersLeave(thread: Thread, s: State, e: Event)
    requires Enabled(s, e) && !Of(thread, e)
    ensures Leaves(thread, s, Next(s, e))
  {
    if thread.TheLoop? {
      ReaderLeaves(s.up, e, s.done, s.pc.Dropped?);
    }
  }

  lemma ReaderLeaves(u: Up, e: Event, done: bool, dropped: bool)
    requires OfReader(e) && ReaderEnabled(u.reader, e)
    ensures var v := ReaderNext(u, e, done, dropped);
      v.toMesh == u.toMesh && v.firstLeft == u.firstLeft && u.channel <= v.channel
  {
  }

  /** Between 1 and `most`, as close to `n` as that allows. */
  function Clip(n: int, most: nat): (r: nat)
    requires 0 < most
    ensures 0 < r <= most
  {
    if n < 1 then 1 else if n > most then most else n
  }

  class Pipe {
    const first: seq<Byte>
    var pc: Pc
    var done: bool
    var up: Up
    var down: Down
    var localClosed: bool
    var closeSent: bool
    var closes: nat
    var cause: Cause
    ghost var trace: seq<Event>

    constructor (first: seq<Byte>)
      ensures Valid() && View() == Initial(first) && this.first == first
    {
      this.first := first;
      pc, done := Polling, false;
      up := Up(Reading, [], 0, first, |first|, first, []);
      down := Down(Socket(SynSent, false, [], SEND_BUFFER), [], false, false, [], [], 0);
      localClosed, closeSent, closes, cause, trace := false, false, 0, NotClosed, [];
    }

    function View(): State
      reads this
    {
      State(pc, done, up, down, localClosed, closeSent, closes, cause)
    }

    /** All that happened is a run of the protocol. */
    ghost predicate Valid()
      reads this
    {
      Run(Initial(first), trace, View())
    }

    /** The fields are where `e` takes them from `v`. */
    ghost method Record(v: State, e: Event)
      requires Run(Initial(first), trace, v) && Enabled(v, e) && View() == Next(v, e)
      modifies this`trace
      ensures Valid()
    {
      RunOne(v, e);
      RunJoined(Initial(first), trace, v, [e], View());
      trace := trace + [e];
    }

    lemma Invariant()
      requires Valid()
      ensures Inv(View())
    {
      InvInitial(first);
      RunKeepsInv(Initial(first), trace, View());
    }

    // ---- the other thread ----

    method Perform(e: Event)
      requires Valid() && Enabled(View(), e)
      modifies this
      ensures Valid() && View() == Next(old(View()), e)
    {
      ghost var v := View();
      var n := Next(View(), e);
      pc, done, up, down := n.pc, n.done, n.up, n.down;
      localClosed, closeSent, closes, cause := n.localClosed, n.closeSent, n.closes, n.cause;
      Record(v, e);
    }

    /** What the other thread does meanwhile; what cannot happen is skipped. */
    method Others(thread: Thread, script: seq<Event>)
      requires Valid()
      modifies this
      ensures Valid() && Leaves(thread, old(View()), View())
      ensures script == [] ==> View() == old(View())
    {
      for i := 0 to |script|
        invariant Valid() && Leaves(thread, old(View()), View())
        invariant script == [] ==> View() == old(View())
      {
        if !Of(thread, script[i]) && Enabled(View(), script[i]) {
          OthersLeave(thread, View(), script[i]);
          Perform(script[i]);
        }
      }
    }

    /** The k-th part of a script. */
    static function Part(script: seq<seq<Event>>, k: nat): (es: seq<Event>)
      ensures |script| <= k ==> es == []
    {
      if k < |script| then script[k] else []
    }

    // ---- the reader thread ----

    /** A read of the local connection that returned. */
    method ReadLocal(bytes: seq<Byte>)
      requires Valid() && up.reader.Reading? && |bytes| <= READ
      modifies this
      ensures Valid() && up.reader == (if bytes == [] then SayingClosed else Adding(bytes))
      ensures up.input == old(up.input) + bytes
    {
      ghost var v := View();
      if |bytes| == 0 {
        up := up.(reader := SayingClosed);
      } else {
        up := up.(reader := Adding(bytes), input := up.input + bytes);
      }
      Record(v, Read(bytes));
    }

    method FailRead()
      requires Valid() && up.reader.Reading?
      modifies this
      ensures Valid() && up.reader == SayingClosed && up.input == old(up.input)
    {
      ghost var v := View();
      up := up.(reader := SayingClosed);
      Record(v, ReadFails);
    }

    /** Backlog::add: waits for room, woken by what the loop sends, until there is some or the pipe is done. */
    method Add(meanwhile: seq<seq<Event>>) returns (r: Added)
      requires Valid() && up.reader.Adding?
      modifies this
      ensures Valid() && up.input == old(up.input)
      ensures r.Counted? ==> up.reader == Holding(old(up.reader.bytes))
      ensures r.GaveUp? ==> up.reader == Stopped && done
      ensures r.StillWaiting? ==> up.reader == old(up.reader) && !done && WaitingAhead(View())
    {
      var k := 0;
      while up.backlog > TO_MESH_LIMIT
        invariant Valid() && up.input == old(up.input) && up.reader == old(up.reader)
        decreases |meanwhile| - k
      {
        if done {
          ghost var v := View();
          up := up.(reader := Stopped);
          Record(v, Event.Add);
          return GaveUp;
        }
        if k >= |meanwhile| {
          HeldBack(trace);
          return StillWaiting;
        }
        Others(TheReader, meanwhile[k]);
        k := k + 1;
      }
      ghost var v := View();
      up := up.(backlog := up.backlog + |up.reader.bytes|, reader := Holding(up.reader.bytes));
      Record(v, Event.Add);
      r := Counted;
    }

    /** A wait that goes on has a reason. */
    lemma HeldBack(es: seq<Event>)
      requires Run(Initial(first), es, View()) && up.reader.Adding? && up.backlog > TO_MESH_LIMIT && !done
      ensures WaitingAhead(View())
    {
      HeldBackForReason(first, es, View());
    }

    /** tx.send, which fails once the receiver is gone; true if the thread goes on. */
    method SendEvent() returns (on: bool)
      requires Valid() && (up.reader.Holding? || up.reader.SayingClosed?)
      modifies this
      ensures Valid() && up.input == old(up.input) && up.reader == if on then Reading else Stopped
      ensures on <==> old(up.reader).Holding? && !old(pc).Dropped?
    {
      ghost var v := View();
      on := !pc.Dropped? && up.reader.Holding?;
      if pc.Dropped? {
        up := up.(reader := Stopped);
      } else if up.reader.Holding? {
        up := up.(channel := up.channel + [Local(up.reader.bytes)], reader := Reading);
      } else {
        up := up.(channel := up.channel + [LocalClosed], reader := Stopped);
      }
      Record(v, if v.up.reader.Holding? then Push else PushClosed);
    }

    /** One read and what becomes of it; false if the thread ended or waits for room. */
    method ReadOne(result: LocalRead, meanwhile: seq<seq<Event>>) returns (on: bool)
      requires Valid() && up.reader.Reading? && (result.Got? ==> 0 < |result.bytes| <= READ)
      modifies this
      ensures Valid() && up.input == old(up.input) + OfRead(result)
      ensures if on then up.reader.Reading?
              else up.reader.Stopped? || (up.reader.Adding? && !done && WaitingAhead(View()))
    {
      match result {
        case Interrupted => return true;
        case EndOfStream => ReadLocal([]);
        case Fails => FailRead();
        case Got(bytes) =>
          ReadLocal(bytes);
          Others(TheReader, Part(meanwhile, 1));
          var r := Add(if |meanwhile| < 3 then [] else meanwhile[3..]);
          if !r.Counted? {
            return false;
          }
      }
      Others(TheReader, Part(meanwhile, 2));
      on := SendEvent();
    }

    /** The thread from its start: it ends, waits for room, or runs out of reads. */
    method ReaderThread(results: seq<LocalRead>, meanwhile: nat -> seq<seq<Event>>)
      requires Valid() && up.reader.Reading?
      requires forall i :: 0 <= i < |results| && results[i].Got? ==> 0 < |results[i].bytes| <= READ
      modifies this
      ensures Valid() && up.input <= old(up.input) + AllRead(results)
      ensures up.reader.Reading? ==> up.input == old(up.input) + AllRead(results)
      ensures up.reader.Adding? ==> !done && WaitingAhead(View())
      ensures up.reader.Reading? || up.reader.Adding? || up.reader.Stopped?
    {
      for k := 0 to |results|
        invariant Valid() && up.reader.Reading? && up.input == old(up.input) + AllRead(results[..k])
      {
        AllReadGrows(results, k);
        Regrouped(old(up.input), AllRead(results[..k]), OfRead(results[k]));
        Others(TheReader, Part(meanwhile(k), 0));
        var on := ReadOne(results[k], meanwhile(k));
        if !on {
          return;
        }
      }
      assert results[..|results|] == results;
    }

    // ---- the loop ----

    /** The poll, which brings what `r` says if the socket allows; false if the loop returned. */
    method PollSocket(r: Round) returns (on: bool)
      requires Valid() && pc.Polling?
      modifies this
      ensures Valid() && pc == if on then Sending else Ended
      ensures on ==> localClosed ==> down.established
    {
      Invariant();
      var k := down.socket;
      var allowed := PollAllowed(k, r.phase, r.receiving, r.bytes, r.room);
      var p := if allowed then Socket(r.phase, r.receiving, r.bytes, r.room) else k.(rx := []);
      assert PollAllowed(k, p.phase, p.receiving, p.rx, p.room);
      ghost var v := View();
      down := down.(socket := Socket(p.phase, p.receiving, k.rx + p.rx, p.room), arrived := down.arrived + p.rx);
      if p.phase.Connected? {
        down := down.(established := true);
      }
      // The local client gave up before the relay answered.
      on := !(localClosed && !down.established);
      pc := if on then Sending else Ended;
      Record(v, Poll(p.phase, p.receiving, p.rx, p.room));
    }

    /** Local to mesh: slice by slice while the socket takes any. */
    method SendLoop(r: Round)
      requires Valid() && pc.Sending?
      modifies this
      ensures Valid() && pc.Closing? && localClosed == old(localClosed)
      ensures up.toMesh == [] || !CanSend(down.socket, closeSent)
    {
      var k := 0;
      while |up.toMesh| > 0 && CanSend(down.socket, closeSent)
        invariant Valid() && pc.Sending? && localClosed == old(localClosed)
        decreases |up.toMesh|
      {
        var n := Clip(r.sends(k), Min(|up.toMesh|, down.socket.room));
        SendSlice(n);
        Others(TheLoop, Part(r.meanwhile, k));
        CreditSent();
        k := k + 1;
      }
      ghost var v := View();
      pc := Closing;
      Record(v, Send(0));
    }

    method SendSlice(n: nat)
      requires Valid() && Enabled(View(), Send(n)) && 0 < n
      modifies this
      ensures Valid() && pc.Crediting? && up.toMesh == old(up.toMesh[n..]) && localClosed == old(localClosed)
    {
      ghost var v := View();
      var fromFirst := Min(n, up.firstLeft);
      up := up.(sentMesh := up.sentMesh + up.toMesh[..n], toMesh := up.toMesh[n..],
                firstLeft := up.firstLeft - fromFirst);
      down := down.(socket := down.socket.(room := down.socket.room - n));
      pc := Crediting(n - fromFirst);
      Record(v, Send(n));
    }

    /** Backlog::sent. */
    method CreditSent()
      requires Valid() && pc.Crediting?
      modifies this
      ensures Valid() && pc.Sending? && up.toMesh == old(up.toMesh) && localClosed == old(localClosed)
      ensures up.backlog == old(up.backlog - pc.owed)
    {
      Invariant();
      ghost var v := View();
      up := up.(backlog := SaturatingSub(up.backlog, pc.owed));
      pc := Sending;
      Record(v, Credit);
    }

    method CloseDrained()
      requires Valid() && pc.Closing?
      modifies this
      ensures Valid() && pc.Receiving? && localClosed == old(localClosed)
      ensures closeSent <==> old(closeSent) || (localClosed && up.toMesh == [])
    {
      ghost var v := View();
      if localClosed && |up.toMesh| == 0 && !closeSent {
        closeSent, closes, cause := true, closes + 1, AfterLocalClosed;
      }
      pc := Receiving;
      Record(v, CloseIfDrained);
    }

    /** Mesh to local, up to the limit. */
    method ReceiveLoop(r: Round)
      requires Valid() && pc.Receiving?
      modifies this
      ensures Valid() && pc.Writing?
      ensures TO_LOCAL_LIMIT <= |down.toLocal| || down.socket.rx == []
    {
      var k := 0;
      while |down.toLocal| < TO_LOCAL_LIMIT && |down.socket.rx| > 0
        invariant Valid() && pc.Receiving?
        decreases |down.socket.rx|
      {
        var n := Clip(r.receives(k), Min(|down.socket.rx|, READ));
        ghost var v := View();
        down := down.(toLocal := down.toLocal + down.socket.rx[..n],
                      socket := down.socket.(rx := down.socket.rx[n..]));
        Record(v, Receive(n));
        Others(TheLoop, Part(r.meanwhile, k));
        k := k + 1;
      }
      ghost var v := View();
      pc := Writing;
      Record(v, Receive(0));
    }

    /** What the local side takes; false if writing failed. */
    method WriteLoop(r: Round) returns (ok: bool)
      requires Valid() && pc.Writing?
      modifies this
      ensures Valid() && pc == if ok then Shutting else Ended
      ensures ok ==> down.toLocal == [] || exists k: nat :: r.writes(k) == 0
      ensures !ok ==> exists k: nat :: r.writes(k) < 0
    {
      var k := 0;
      while |down.toLocal| > 0 && r.writes(k) != 0
        invariant Valid() && pc.Writing?
        decreases |down.toLocal|
      {
        ghost var v := View();
        if r.writes(k) < 0 {
          pc := Ended;
          Record(v, WriteFails);
          return false;
        }
        var n := Clip(r.writes(k), |down.toLocal|);
        down := down.(written := down.written + down.toLocal[..n], toLocal := down.toLocal[n..]);
        Record(v, Write(n));
        Others(TheLoop, Part(r.meanwhile, k));
        k := k + 1;
      }
      ghost var v := View();
      pc := Shutting;
      Record(v, Write(0));
      ok := true;
    }

    /** The relay's end of stream passed on, and our side closed if all of ours is out. */
    method ShutFinished()
      requires Valid() && pc.Shutting?
      modifies this
      ensures Valid() && pc.Checking?
      ensures down.localShut <==> old(down.localShut) || old(RelayFinished(down))
      ensures closeSent <==> old(closeSent) || (old(RelayFinished(down)) && old(up.toMesh) == [])
    {
      ghost var v := View();
      var k := down.socket;
      if down.established && !MayRecv(k) && !CanRecv(k) && |down.toLocal| == 0 && !down.localShut {
        down := down.(localShut := true, shuts := down.shuts + 1);
        if !closeSent && |up.toMesh| == 0 {
          closeSent, closes, cause := true, closes + 1, AfterRelayFinished;
        }
      }
      pc := Checking;
      Record(v, ShutIfFinished);
    }

    /** The steps that only move the loop on: a check passed, a wait over, or a return. */
    method MoveOn(e: Event)
      requires Valid() && (e.Check? || e.Pause? || e.GiveUp?) && Enabled(View(), e)
      modifies this
      ensures Valid() && pc == if e.Check? then Waiting else if e.Pause? then Polling else Ended
    {
      ghost var v := View();
      pc := if e.Check? then Waiting else if e.Pause? then Polling else Ended;
      Record(v, e);
    }

    method TakeEvent()
      requires Valid() && (pc.Waiting? || pc.Draining?) && up.channel != []
      modifies this
      ensures Valid() && pc.Draining? && up.channel == old(up.channel[1..])
    {
      ghost var v := View();
      match up.channel[0] {
        case Local(bytes) => up := up.(toMesh := up.toMesh + bytes, channel := up.channel[1..]);
        case LocalClosed => up, localClosed := up.(channel := up.channel[1..]), true;
      }
      pc := Draining;
      Record(v, Take);
    }

    /** recv_timeout, and try_recv until the channel is empty. */
    method WaitAndDrain(meanwhile: seq<seq<Event>>)
      requires Valid() && pc.Waiting?
      modifies this
      ensures Valid() && (pc.Waiting? || (pc.Draining? && up.channel == []))
    {
      Others(TheLoop, Part(meanwhile, 0));
      var k := 1;
      while |up.channel| > 0
        invariant Valid() && (pc.Waiting? || pc.Draining?) && (pc.Waiting? || up.channel == [] || 1 < k)
        decreases if k < |meanwhile| then |meanwhile| - k else 0, |up.channel|
      {
        TakeEvent();
        Others(TheLoop, Part(meanwhile, k));
        k := k + 1;
      }
    }

    /** Poll, and both directions as far as they go; false if the loop returned. */
    method MoveBytes(r: Round) returns (on: bool)
      requires Valid() && pc.Polling?
      modifies this
      ensures Valid() && pc == if on then Checking else Ended
    {
      on := PollSocket(r);
      if on {
        SendLoop(r);
        CloseDrained();
        ReceiveLoop(r);
        on := WriteLoop(r);
      }
      if on {
        ShutFinished();
      }
    }

    /** One pass of the loop; false if it returned. */
    method Pass(r: Round, waiting: seq<seq<Event>>) returns (on: bool)
      requires Valid() && pc.Polling?
      modifies this
      ensures Valid() && pc == if on then Polling else Ended
    {
      if r.stop {
        MoveOn(GiveUp);
        return false;
      }
      on := MoveBytes(r);
      if !on {
        return;
      }
      if down.socket.phase.Closed? || r.deadline {
        MoveOn(GiveUp);
        return false;
      }
      MoveOn(Check);
      WaitAndDrain(waiting);
      on := !r.outOfReach;
      MoveOn(if on then Pause else GiveUp);
    }

    /** What pipe does once its loop returned: done set, the reader released, the receiver dropped. */
    method Finish(meanwhile: seq<seq<Event>>)
      requires Valid() && pc.Ended?
      modifies this
      ensures Valid() && pc.Dropped? && done && up.channel == []
    {
      SetDone();
      Others(TheLoop, Part(meanwhile, 0));
      Release();
      Others(TheLoop, Part(meanwhile, 1));
      DropReceiver();
    }

    method SetDone()
      requires Valid() && pc.Ended?
      modifies this
      ensures Valid() && pc.DoneSet? && done
    {
      ghost var v := View();
      done, pc := true, DoneSet;
      Record(v, TearDown);
    }

    /** Credited with more than the backlog can hold. */
    method Release()
      requires Valid() && pc.DoneSet?
      modifies this
      ensures Valid() && pc.Released? && done == old(done) && up.backlog == 0
    {
      ghost var v := View();
      up, pc := up.(backlog := 0), Released;
      Record(v, TearDown);
    }

    method DropReceiver()
      requires Valid() && pc.Released?
      modifies this
      ensures Valid() && pc.Dropped? && done == old(done) && up.channel == []
    {
      ghost var v := View();
      up, pc := up.(channel := []), Dropped;
      Record(v, TearDown);
    }

    /** run and what follows it, pass by pass, for as long as there are any. */
    method Carry(rounds: seq<(Round, seq<seq<Event>>)>, after: seq<seq<Event>>) returns (over: bool)
      requires Valid() && pc.Polling?
      modifies this
      ensures Valid() && pc == if over then Dropped else Polling
      ensures up.sentMesh <= first + LocalBytes(trace) && down.written <= MeshBytes(trace)
    {
      over := false;
      for k := 0 to |rounds|
        invariant Valid() && pc.Polling? && !over
      {
        var on := Pass(rounds[k].0, rounds[k].1);
        if !on {
          Finish(after);
          over := true;
          break;
        }
      }
      BytesAreInOrder(first, trace, View());
    }
  }

  /** More than the limit is on its way ahead of the reader. */
  predicate WaitingAhead(s: State) {
    Running(s) ==> |Queued(s.up.channel)| + |s.up.toMesh| + Owed(s.pc) > TO_MESH_LIMIT
  }

  function AllRead(results: seq<LocalRead>): seq<Byte> {
    if results == [] then [] else AllRead(results[..|results| - 1]) + OfRead(results[|results| - 1])
  }

  function OfRead(r: LocalRead): seq<Byte> { if r.Got? then r.bytes else [] }

  lemma {:induction false} AllReadGrows(results: seq<LocalRead>, k: nat)
    requires k < |results|
    ensures AllRead(results[..k + 1]) == AllRead(results[..k]) + OfRead(results[k])
    ensures AllRead(results[..k + 1]) <= AllRead(results)
    decreases |results| - k
  {
    assert results[..k + 1][..k] == results[..k];
    if k + 1 < |results| {
      AllReadGrows(results, k + 1);
    } else {
      assert results[..k + 1] == results;
    }
  }
}
