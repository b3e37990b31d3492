/** The byte pipe between a loopback connection and a relay on the mesh: a reader thread, a channel, the pipe's loop. */
module PipeProtocol {
  import opened Bytes

  const TO_MESH_LIMIT: nat := 256 * 1024
  const TO_LOCAL_LIMIT: nat := 64 * 1024

  /** Size of the mesh socket's send buffer. */
  const SEND_BUFFER: nat := 64 * 1024

  /** Size of the buffers both sides read into. */
  const READ: nat := 16 * 1024

  /** The thread reading the local connection. */
  datatype Reader =
    | Reading
    | Adding(bytes: seq<Byte>)   // read, not counted in the backlog yet
    | Holding(bytes: seq<Byte>)  // counted, not in the channel yet
    | SayingClosed
    | Stopped

  datatype Message = Local(bytes: seq<Byte>) | LocalClosed

  /** Where the pipe's loop is in its pass, and after it the stages of the teardown. */
  datatype Pc =
    | Polling
    | Sending
    | Crediting(owed: nat)       // handed to the socket, backlog not told yet
    | Closing
    | Receiving
    | Writing
    | Shutting
    | Checking
    | Waiting
    | Draining
    | Ended
    | DoneSet
    | Released
    | Dropped                    // the channel's receiver is gone

  datatype Phase = SynSent | Connected | TimeWait | Closed

  /** What the pipe can see of its TCP socket; bytes, closing and room for more to send reach it only while the
      interface is polled. */
  datatype Socket = Socket(phase: Phase, receiving: bool, rx: seq<Byte>, room: nat)

  datatype Cause = NotClosed | AfterLocalClosed | AfterRelayFinished

  /** Local bytes on their way to the mesh. */
  datatype Up = Up(
    reader: Reader,
    channel: seq<Message>,
    backlog: nat,
    toMesh: seq<Byte>,
    firstLeft: nat,
    // history
    input: seq<Byte>,            // the admitted head and then every byte read locally
    sentMesh: seq<Byte>)         // taken by the mesh socket

  /** Mesh bytes on their way to the local side. */
  datatype Down = Down(
    socket: Socket,
    toLocal: seq<Byte>,
    established: bool,
    localShut: bool,
    // history
    arrived: seq<Byte>,          // delivered in order by the mesh socket's peer
    written: seq<Byte>,          // taken by the local connection
    shuts: nat)

  datatype State = State(
    pc: Pc,
    done: bool,
    up: Up,
    down: Down,
    localClosed: bool,
    closeSent: bool,
    // history
    closes: nat,
    cause: Cause)

  datatype Event =
    // the reader
    | Read(bytes: seq<Byte>)     // nothing read: end of the stream
    | ReadFails
    | Add
    | Push
    | PushClosed
    // the loop
    | Poll(phase: Phase, receiving: bool, bytes: seq<Byte>, room: nat)
    | GiveUp                     // stopped, restarted, refused, timed out or out of reach
    | Send(n: nat)               // 0: nothing waits or can_send is false
    | Credit
    | CloseIfDrained
    | Receive(n: nat)            // 0: enough waiting already or can_recv is false
    | Write(n: nat)              // 0: nothing to write, or the local side would block
    | WriteFails
    | ShutIfFinished
    | Check
    | Take
    | Pause                      // a wait that timed out, or a drained channel
    | TearDown

  function Initial(first: seq<Byte>): State {
    State(Polling, false, Up(Reading, [], 0, first, |first|, first, []),
          Down(Socket(SynSent, false, [], SEND_BUFFER), [], false, false, [], [], 0), false, false, 0, NotClosed)
  }

  predicate Running(s: State) {
    !s.pc.Ended? && !s.pc.DoneSet? && !s.pc.Released? && !s.pc.Dropped?
  }

  predicate CanRecv(k: Socket) { k.rx != [] }

  predicate MayRecv(k: Socket) { k.receiving || k.rx != [] }

  /** Not once our side is closed. */
  predicate CanSend(k: Socket, closeSent: bool) { k.phase.Connected? && !closeSent && 0 < k.room }

  /** What a poll may do to the socket: no bytes before it connects, none once its peer's side is closed. */
  predicate PollAllowed(k: Socket, phase: Phase, receiving: bool, bytes: seq<Byte>, room: nat) {
    && (phase.SynSent? ==> k.phase.SynSent? && !receiving && bytes == [] && room == k.room)
    && (phase.Connected? ==> k.phase.SynSent? || k.phase.Connected?)
    && (k.phase.Closed? ==> phase.Closed?)
    && (receiving ==> phase.Connected?)
    && (!k.phase.SynSent? && !k.receiving ==> !receiving && bytes == [])
    && k.room <= room <= SEND_BUFFER
  }

  predicate OfReader(e: Event) { e.Read? || e.ReadFails? || e.Add? || e.Push? || e.PushClosed? }

  predicate ReaderEnabled(r: Reader, e: Event)
    requires OfReader(e)
  {
    match e
    case Read(bytes) => r.Reading? && |bytes| <= READ
    case ReadFails => r.Reading?
    case Add => r.Adding?
    case Push => r.Holding?
    case PushClosed => r.SayingClosed?
  }

  predicate Enabled(s: State, e: Event) {
    match e
    case Poll(phase, receiving, bytes, room) =>
      s.pc.Polling? && PollAllowed(s.down.socket, phase, receiving, bytes, room)
    case GiveUp => s.pc.Polling? || s.pc.Checking? || s.pc.Waiting? || s.pc.Draining?
    case Send(n) =>
      && s.pc.Sending? && n <= |s.up.toMesh| && n <= s.down.socket.room
      && (0 < n <==> s.up.toMesh != [] && CanSend(s.down.socket, s.closeSent))
    case Credit => s.pc.Crediting?
    case CloseIfDrained => s.pc.Closing?
    case Receive(n) =>
      && s.pc.Receiving? && n <= |s.down.socket.rx| && n <= READ
      && (0 < n <==> |s.down.toLocal| < TO_LOCAL_LIMIT && CanRecv(s.down.socket))
    case Write(n) => s.pc.Writing? && n <= |s.down.toLocal|
    case WriteFails => s.pc.Writing? && s.down.toLocal != []
    case ShutIfFinished => s.pc.Shutting?
    case Check => s.pc.Checking? && !s.down.socket.phase.Closed?
    case Take => (s.pc.Waiting? || s.pc.Draining?) && s.up.channel != []
    case Pause => s.pc.Waiting? || (s.pc.Draining? && s.up.channel == [])
    case TearDown => s.pc.Ended? || s.pc.DoneSet? || s.pc.Released?
    case _ => ReaderEnabled(s.up.reader, e)
  }

  function Min(a: nat, b: nat): nat { if a < b then a else b }

  function SaturatingSub(a: nat, b: nat): nat { if a < b then 0 else a - b }

  /** The reader's own steps; once the receiver is dropped, sending fails. */
  function ReaderNext(u: Up, e: Event, done: bool, dropped: bool): Up
    requires OfReader(e) && ReaderEnabled(u.reader, e)
  {
    match e
    case Read(bytes) =>
      if bytes == [] then u.(reader := SayingClosed) else u.(reader := Adding(bytes), input := u.input + bytes)
    case ReadFails => u.(reader := SayingClosed)
    case Add =>
      if u.backlog <= TO_MESH_LIMIT then u.(backlog := u.backlog + |u.reader.bytes|, reader := Holding(u.reader.bytes))
      else if done then u.(reader := Stopped)
      else u
    case Push => if dropped then u.(reader := Stopped) else Pushed(u, Local(u.reader.bytes), Reading)
    case PushClosed => if dropped then u.(reader := Stopped) else Pushed(u, LocalClosed, Stopped)
  }

  function Pushed(u: Up, m: Message, reader: Reader): Up {
    u.(channel := u.channel + [m], reader := reader)
  }

  /** One slice taken by the mesh socket. */
  function Sent(u: Up, n: nat): Up
    requires n <= |u.toMesh|
  {
    u.(sentMesh := u.sentMesh + u.toMesh[..n], toMesh := u.toMesh[n..], firstLeft := u.firstLeft - Min(n, u.firstLeft))
  }

  function Taken(u: Up): Up
    requires u.channel != []
  {
    match u.channel[0]
    case Local(bytes) => u.(toMesh := u.toMesh + bytes, channel := u.channel[1..])
    case LocalClosed => u.(channel := u.channel[1..])
  }

  function Polled(d: Down, phase: Phase, receiving: bool, bytes: seq<Byte>, room: nat): Down {
    d.(socket := Socket(phase, receiving, d.socket.rx + bytes, room), arrived := d.arrived + bytes,
       established := d.established || phase.Connected?)
  }

  /** A slice handed to the socket takes up room in its buffer. */
  function Buffered(d: Down, n: nat): Down
    requires n <= d.socket.room
  {
    d.(socket := d.socket.(room := d.socket.room - n))
  }

  function Received(d: Down, n: nat): Down
    requires n <= |d.socket.rx|
  {
    d.(toLocal := d.toLocal + d.socket.rx[..n], socket := d.socket.(rx := d.socket.rx[n..]))
  }

  function Written(d: Down, n: nat): Down
    requires n <= |d.toLocal|
  {
    d.(written := d.written + d.toLocal[..n], toLocal := d.toLocal[n..])
  }

  predicate RelayFinished(d: Down) {
    d.established && !MayRecv(d.socket) && !CanRecv(d.socket) && d.toLocal == [] && !d.localShut
  }

  function ClosedAfter(s: State, cause: Cause): State {
    s.(closeSent := true, closes := s.closes + 1, cause := cause)
  }

  function Shut(s: State): State {
    var shut := s.(down := s.down.(localShut := true, shuts := s.down.shuts + 1));
    if !s.closeSent && s.up.toMesh == [] then ClosedAfter(shut, AfterRelayFinished) else shut
  }

  function TornDown(s: State): State {
    if s.pc.Ended? then s.(done := true, pc := DoneSet)
    else if s.pc.DoneSet? then s.(up := s.up.(backlog := 0), pc := Released)
    else s.(up := s.up.(channel := []), pc := Dropped)
  }

  function Next(s: State, e: Event): State
    requires Enabled(s, e)
  {
    match e
    case Poll(phase, receiving, bytes, room) =>
      var down := Polled(s.down, phase, receiving, bytes, room);
      s.(down := down, pc := if s.localClosed && !down.established then Ended else Sending)
    case GiveUp => s.(pc := Ended)
    case Send(n) =>
      // The head's share was never counted in the backlog.
      if n == 0 then s.(pc := Closing)
      else s.(up := Sent(s.up, n), down := Buffered(s.down, n), pc := Crediting(n - Min(n, s.up.firstLeft)))
    case Credit => s.(up := s.up.(backlog := SaturatingSub(s.up.backlog, s.pc.owed)), pc := Sending)
    case CloseIfDrained =>
      var passed := s.(pc := Receiving);
      if s.localClosed && s.up.toMesh == [] && !s.closeSent then ClosedAfter(passed, AfterLocalClosed) else passed
    case Receive(n) => if n == 0 then s.(pc := Writing) else s.(down := Received(s.down, n))
    case Write(n) => if n == 0 then s.(pc := Shutting) else s.(down := Written(s.down, n))
    case WriteFails => s.(pc := Ended)
    case ShutIfFinished =>
      var passed := s.(pc := Checking);
      if RelayFinished(s.down) then Shut(passed) else passed
    case Check => s.(pc := Waiting)
    case Take => s.(up := Taken(s.up), localClosed := s.localClosed || s.up.channel[0].LocalClosed?, pc := Draining)
    case Pause => s.(pc := Polling)
    case TearDown => TornDown(s)
    case _ => s.(up := ReaderNext(s.up, e, s.done, s.pc.Dropped?))
  }

  ghost predicate Run(s: State, es: seq<Event>, t: State)
    decreases |es|
  {
    if es == [] then s == t else Enabled(s, es[0]) && Run(Next(s, es[0]), es[1..], t)
  }

  // ---------------------------------------------------------------------------------
  // The invariant
  // ---------------------------------------------------------------------------------

  /** Read by the reader and not in the channel. */
  function Held(r: Reader): seq<Byte> {
    if r.Adding? || r.Holding? then r.bytes else []
  }

  /** The part of it counted in the backlog. */
  function Counted(r: Reader): nat {
    if r.Holding? then |r.bytes| else 0
  }

  function Carried(m: Message): seq<Byte> { if m.Local? then m.bytes else [] }

  function Queued(channel: seq<Message>): seq<Byte> {
    if channel == [] then [] else Carried(channel[0]) + Queued(channel[1..])
  }

  function Owed(pc: Pc): nat { if pc.Crediting? then pc.owed else 0 }

  /** Every byte of the input is with the mesh socket, the loop, the channel or the reader, in that order. */
  predicate InOrder(u: Up) {
    u.sentMesh + u.toMesh + (Queued(u.channel) + Held(u.reader)) == u.input
  }

  /** The backlog is what was counted and not credited. */
  predicate Accounted(u: Up, owed: nat) {
    && u.firstLeft <= |u.toMesh|
    && u.backlog + u.firstLeft == Counted(u.reader) + |Queued(u.channel)| + |u.toMesh| + owed
  }

  predicate Bounded(u: Up) {
    |Held(u.reader)| <= READ && u.backlog <= TO_MESH_LIMIT + READ
  }

  /** The reader says last that the local side is closed. */
  ghost predicate ClosedIsLast(u: Up) {
    forall i :: 0 <= i < |u.channel| && u.channel[i].LocalClosed? ==> i == |u.channel| - 1 && u.reader.Stopped?
  }

  ghost predicate UpInv(s: State) {
    && s.up.sentMesh <= s.up.input
    && Bounded(s.up)
    && (s.done ==> !Running(s))
    && (Running(s) ==> InOrder(s.up) && Accounted(s.up, Owed(s.pc)))
    && ClosedIsLast(s.up)
    && (s.localClosed ==> s.up.reader.Stopped? && s.up.channel == [])
  }

  /** The local side gets what arrived, in order, and is shut once at most, behind all of it. */
  predicate Delivered(d: Down) {
    && d.arrived == d.written + (d.toLocal + d.socket.rx)
    && |d.toLocal| < TO_LOCAL_LIMIT + READ
    && d.shuts == (if d.localShut then 1 else 0)
    && (d.socket.phase.SynSent? ==> !d.established)
    && (d.socket.receiving ==> d.socket.phase.Connected?)
    && d.socket.room <= SEND_BUFFER
    && (d.localShut ==> d.established && !d.socket.receiving && d.socket.rx == [] && d.toLocal == [])
  }

  /** The mesh socket is closed once at most; after a local close, only behind the whole input. */
  predicate ClosedOnce(s: State) {
    && s.closes == (if s.closeSent then 1 else 0)
    && (s.closeSent <==> !s.cause.NotClosed?)
    && (s.cause.AfterLocalClosed? ==> s.localClosed && s.up.sentMesh == s.up.input)
    && (s.cause.AfterRelayFinished? ==> s.down.localShut)
    && (s.pc.Crediting? ==> !s.closeSent)
  }

  ghost predicate Inv(s: State) {
    UpInv(s) && Delivered(s.down) && ClosedOnce(s)
  }

  // ---------------------------------------------------------------------------------
  // Its preservation
  // ---------------------------------------------------------------------------------

  lemma {:induction false} QueuedAppend(channel: seq<Message>, m: Message)
    ensures Queued(channel + [m]) == Queued(channel) + Carried(m)
  {
    var both := channel + [m];
    if channel == [] {
      assert both[1..] == [];
    } else {
      assert both[1..] == channel[1..] + [m];
      QueuedAppend(channel[1..], m);
    }
  }

  lemma Regrouped(a: seq<Byte>, b: seq<Byte>, c: seq<Byte>)
    ensures a + (b + c) == (a + b) + c
  {
  }

  lemma PushKept(u: Up, m: Message, reader: Reader, owed: nat)
    requires InOrder(u) && Accounted(u, owed) && Held(u.reader) == Carried(m) && Counted(u.reader) == |Carried(m)|
    requires Held(reader) == [] && !reader.Holding?
    ensures InOrder(Pushed(u, m, reader)) && Accounted(Pushed(u, m, reader), owed)
  {
    QueuedAppend(u.channel, m);
    assert Queued(u.channel) + Carried(m) + [] == Queued(u.channel) + Held(u.reader);
  }

  lemma ReadKept(u: Up, bytes: seq<Byte>, owed: nat)
    requires InOrder(u) && Accounted(u, owed) && u.reader.Reading?
    ensures var v := u.(reader := Adding(bytes), input := u.input + bytes); InOrder(v) && Accounted(v, owed)
  {
    assert Queued(u.channel) + [] == Queued(u.channel);
    Regrouped(u.sentMesh + u.toMesh, Queued(u.channel), bytes);
  }

  lemma ReaderKept(u: Up, e: Event, done: bool, owed: nat)
    requires InOrder(u) && Accounted(u, owed) && !done && OfReader(e) && ReaderEnabled(u.reader, e)
    ensures var v := ReaderNext(u, e, done, false); InOrder(v) && Accounted(v, owed)
  {
    match e {
      case Read(bytes) => if bytes != [] { ReadKept(u, bytes, owed); }
      case ReadFails =>
      case Add =>
      case Push => PushKept(u, Local(u.reader.bytes), Reading, owed);
      case PushClosed => PushKept(u, LocalClosed, Stopped, owed);
    }
  }

  lemma SendKept(u: Up, n: nat)
    requires InOrder(u) && Accounted(u, 0) && n <= |u.toMesh|
    ensures InOrder(Sent(u, n)) && Accounted(Sent(u, n), n - Min(n, u.firstLeft))
  {
    assert u.toMesh[..n] + u.toMesh[n..] == u.toMesh;
    Regrouped(u.sentMesh, u.toMesh[..n], u.toMesh[n..]);
  }

  lemma TakeKept(u: Up)
    requires InOrder(u) && Accounted(u, 0) && u.channel != []
    ensures InOrder(Taken(u)) && Accounted(Taken(u), 0)
  {
    var bytes, rest := Carried(u.channel[0]), Queued(u.channel[1..]);
    Regrouped(u.sentMesh, u.toMesh, bytes);
    Regrouped(bytes, rest, Held(u.reader));
    Regrouped(u.sentMesh + u.toMesh, bytes, rest + Held(u.reader));
    assert u.toMesh + [] == u.toMesh;
  }

  /** Nothing but the reader comes after the news that the local side is closed. */
  lemma ReaderKeepsClosedIsLast(u: Up, e: Event, done: bool, dropped: bool)
    requires ClosedIsLast(u) && OfReader(e) && ReaderEnabled(u.reader, e)
    ensures ClosedIsLast(ReaderNext(u, e, done, dropped))
  {
  }

  lemma ReaderKeepsBounded(u: Up, e: Event, done: bool, dropped: bool)
    requires Bounded(u) && OfReader(e) && ReaderEnabled(u.reader, e)
    ensures Bounded(ReaderNext(u, e, done, dropped))
  {
  }

  lemma ReaderKeepsPrefix(u: Up, e: Event, done: bool, dropped: bool)
    requires u.sentMesh <= u.input && OfReader(e) && ReaderEnabled(u.reader, e)
    ensures ReaderNext(u, e, done, dropped).sentMesh <= ReaderNext(u, e, done, dropped).input
  {
  }

  lemma SendKeepsPrefix(u: Up, n: nat)
    requires InOrder(u) && n <= |u.toMesh|
    ensures Sent(u, n).sentMesh <= u.input
  {
    var v := Sent(u, n);
    assert v.sentMesh == (u.sentMesh + u.toMesh)[..|v.sentMesh|];
  }

  lemma ReaderKeepsUpInv(s: State, e: Event)
    requires UpInv(s) && OfReader(e) && Enabled(s, e)
    ensures UpInv(Next(s, e))
  {
    if Running(s) {
      ReaderKept(s.up, e, s.done, Owed(s.pc));
    }
    ReaderKeepsClosedIsLast(s.up, e, s.done, s.pc.Dropped?);
    ReaderKeepsBounded(s.up, e, s.done, s.pc.Dropped?);
    ReaderKeepsPrefix(s.up, e, s.done, s.pc.Dropped?);
  }

  predicate MovesUp(e: Event) { (e.Send? && 0 < e.n) || e.Credit? || e.Take? || e.TearDown? }

  lemma UpUntouched(s: State, e: Event)
    requires !OfReader(e) && !MovesUp(e) && Enabled(s, e)
    ensures var n := Next(s, e);
      n.up == s.up && n.done == s.done && n.localClosed == s.localClosed && Owed(n.pc) == Owed(s.pc) && Running(s)
  {
  }

  lemma SendKeepsUpInv(s: State, n: nat)
    requires UpInv(s) && 0 < n && Enabled(s, Send(n))
    ensures UpInv(Next(s, Send(n)))
  {
    SendKept(s.up, n);
    SendKeepsPrefix(s.up, n);
  }

  lemma MoveKeepsUpInv(s: State, e: Event)
    requires UpInv(s) && MovesUp(e) && Enabled(s, e)
    ensures UpInv(Next(s, e))
  {
    match e {
      case Send(n) => SendKeepsUpInv(s, n);
      case Credit =>
      case Take => TakeKept(s.up);
      case TearDown =>
    }
  }

  lemma LoopKeepsUpInv(s: State, e: Event)
    requires UpInv(s) && !OfReader(e) && Enabled(s, e)
    ensures UpInv(Next(s, e))
  {
    if MovesUp(e) {
      MoveKeepsUpInv(s, e);
    } else {
      UpUntouched(s, e);
    }
  }

  lemma PollKept(d: Down, phase: Phase, receiving: bool, bytes: seq<Byte>, room: nat)
    requires Delivered(d) && PollAllowed(d.socket, phase, receiving, bytes, room)
    ensures Delivered(Polled(d, phase, receiving, bytes, room))
  {
    Regrouped(d.toLocal, d.socket.rx, bytes);
    Regrouped(d.written, d.toLocal + d.socket.rx, bytes);
  }

  lemma ReceiveKept(d: Down, n: nat)
    requires Delivered(d) && n <= |d.socket.rx| && n <= READ && |d.toLocal| < TO_LOCAL_LIMIT
    ensures Delivered(Received(d, n))
  {
    assert d.socket.rx == d.socket.rx[..n] + d.socket.rx[n..];
    Regrouped(d.toLocal, d.socket.rx[..n], d.socket.rx[n..]);
  }

  lemma WriteKept(d: Down, n: nat)
    requires Delivered(d) && n <= |d.toLocal|
    ensures Delivered(Written(d, n))
  {
    assert d.toLocal == d.toLocal[..n] + d.toLocal[n..];
    Regrouped(d.toLocal[..n], d.toLocal[n..], d.socket.rx);
    Regrouped(d.written, d.toLocal[..n], d.toLocal[n..] + d.socket.rx);
  }

  lemma StepKeepsDelivered(s: State, e: Event)
    requires Delivered(s.down) && Enabled(s, e)
    ensures Delivered(Next(s, e).down)
  {
    match e {
      case Poll(phase, receiving, bytes, room) => PollKept(s.down, phase, receiving, bytes, room);
      case Send(n) =>
      case Receive(n) => if 0 < n { ReceiveKept(s.down, n); }
      case Write(n) => WriteKept(s.down, n);
      case ShutIfFinished =>
      case _ => assert Next(s, e).down == s.down;
    }
  }

  /** After the local side closed and the loop drained, nothing of the input is left. */
  lemma DrainedIsComplete(s: State)
    requires UpInv(s) && Running(s) && s.localClosed && s.up.toMesh == []
    ensures s.up.sentMesh == s.up.input
  {
    assert s.up.sentMesh + [] + ([] + []) == s.up.sentMesh;
  }

  lemma StepKeepsClosedOnce(s: State, e: Event)
    requires ClosedOnce(s) && Enabled(s, e)
    requires s.localClosed && Running(s) && s.up.toMesh == [] ==> s.up.sentMesh == s.up.input
    requires s.localClosed ==> s.up.reader.Stopped?
    ensures ClosedOnce(Next(s, e))
  {
    match e {
      case Send(n) =>
      case Credit =>
      case CloseIfDrained =>
      case ShutIfFinished =>
      case Take =>
      case TearDown =>
      case _ => assert Next(s, e).up == s.up || OfReader(e);
    }
  }

  lemma StepKeepsInv(s: State, e: Event)
    requires Inv(s) && Enabled(s, e)
    ensures Inv(Next(s, e))
  {
    if OfReader(e) {
      ReaderKeepsUpInv(s, e);
    } else {
      LoopKeepsUpInv(s, e);
    }
    StepKeepsDelivered(s, e);
    if s.localClosed && Running(s) && s.up.toMesh == [] {
      DrainedIsComplete(s);
    }
    StepKeepsClosedOnce(s, e);
  }

  lemma InvInitial(first: seq<Byte>)
    ensures Inv(Initial(first))
  {
    assert [] + first + ([] + []) == first;
  }

  lemma {:induction false} RunKeepsInv(s: State, es: seq<Event>, t: State)
    requires Inv(s) && Run(s, es, t)
    ensures Inv(t)
    decreases |es|
  {
    if es != [] {
      StepKeepsInv(s, es[0]);
      RunKeepsInv(Next(s, es[0]), es[1..], t);
    }
  }

  // ---------------------------------------------------------------------------------
  // Main results
  // ---------------------------------------------------------------------------------

  /** What was read from the local connection over a run. */
  function LocalBytes(es: seq<Event>): seq<Byte> {
    if es == [] then [] else (if es[0].Read? then es[0].bytes else []) + LocalBytes(es[1..])
  }

  /** What the mesh socket's peer delivered over a run. */
  function MeshBytes(es: seq<Event>): seq<Byte> {
    if es == [] then [] else (if es[0].Poll? then es[0].bytes else []) + MeshBytes(es[1..])
  }

  lemma InputGrows(s: State, e: Event)
    requires Enabled(s, e)
    ensures Next(s, e).up.input == s.up.input + (if e.Read? then e.bytes else [])
  {
  }

  lemma ArrivedGrows(s: State, e: Event)
    requires Enabled(s, e)
    ensures Next(s, e).down.arrived == s.down.arrived + (if e.Poll? then e.bytes else [])
  {
  }

  lemma {:induction false} Histories(s: State, es: seq<Event>, t: State)
    requires Run(s, es, t)
    ensures t.up.input == s.up.input + LocalBytes(es)
    ensures t.down.arrived == s.down.arrived + MeshBytes(es)
    decreases |es|
  {
    if es != [] {
      var n := Next(s, es[0]);
      Histories(n, es[1..], t);
      InputGrows(s, es[0]);
      ArrivedGrows(s, es[0]);
      Regrouped(s.up.input, if es[0].Read? then es[0].bytes else [], LocalBytes(es[1..]));
      Regrouped(s.down.arrived, if es[0].Poll? then es[0].bytes else [], MeshBytes(es[1..]));
    }
  }

  /** The mesh gets a prefix of the head and the local bytes, the local side a prefix of what the mesh delivered. */
  lemma BytesAreInOrder(first: seq<Byte>, es: seq<Event>, t: State)
    requires Run(Initial(first), es, t)
    ensures t.up.sentMesh <= first + LocalBytes(es)
    ensures t.down.written <= MeshBytes(es)
  {
    InvInitial(first);
    RunKeepsInv(Initial(first), es, t);
    Histories(Initial(first), es, t);
    assert t.down.arrived == [] + MeshBytes(es) == MeshBytes(es);
  }

  /** Until the teardown the backlog is exactly the reader's bytes still on their way; crediting never saturates. */
  lemma BacklogIsExact(first: seq<Byte>, es: seq<Event>, t: State)
    requires Run(Initial(first), es, t)
    ensures Running(t) ==>
      && t.up.backlog == Counted(t.up.reader) + |Queued(t.up.channel)| + Owed(t.pc) + |t.up.toMesh| - t.up.firstLeft
      && Owed(t.pc) <= t.up.backlog
    ensures t.up.backlog <= TO_MESH_LIMIT + READ && |t.down.toLocal| < TO_LOCAL_LIMIT + READ
  {
    InvInitial(first);
    RunKeepsInv(Initial(first), es, t);
  }

  /** A reader held back is held back by bytes the loop has yet to send, and after the teardown by nothing. */
  lemma HeldBackForReason(first: seq<Byte>, es: seq<Event>, t: State)
    requires Run(Initial(first), es, t) && t.up.reader.Adding? && Next(t, Add) == t
    ensures !t.done
    ensures Running(t) ==> |Queued(t.up.channel)| + |t.up.toMesh| + Owed(t.pc) > TO_MESH_LIMIT
  {
    InvInitial(first);
    RunKeepsInv(Initial(first), es, t);
  }

  /** Whatever step closes the mesh socket is the only one to do so, and leaves no byte waiting. */
  lemma ClosedOnceAndDrained(first: seq<Byte>, es: seq<Event>, t: State, e: Event)
    requires Run(Initial(first), es, t) && Enabled(t, e)
    ensures Next(t, e).closes <= 1
    ensures Next(t, e).closes != t.closes ==>
      t.closes == 0 && t.up.toMesh == [] && (t.localClosed || RelayFinished(t.down))
    ensures 0 < t.closes ==> Next(t, e).up.sentMesh == t.up.sentMesh
  {
    InvInitial(first);
    RunKeepsInv(Initial(first), es, t);
    StepKeepsInv(t, e);
    CloseStep(t, e);
  }

  lemma CloseStep(s: State, e: Event)
    requires ClosedOnce(s) && Enabled(s, e)
    ensures Next(s, e).closes != s.closes ==>
      s.closes == 0 && s.up.toMesh == [] && (s.localClosed || RelayFinished(s.down))
    ensures 0 < s.closes ==> Next(s, e).up.sentMesh == s.up.sentMesh
  {
  }

  /** After a local close, the FIN follows the head and every local byte. */
  lemma FinFollowsEverything(first: seq<Byte>, es: seq<Event>, t: State)
    requires Run(Initial(first), es, t) && t.cause.AfterLocalClosed?
    ensures t.up.sentMesh == first + LocalBytes(es)
  {
    InvInitial(first);
    RunKeepsInv(Initial(first), es, t);
    Histories(Initial(first), es, t);
  }

  /** The local write side is shut once at most, behind everything the relay sent. */
  lemma ShutBehindEverything(first: seq<Byte>, es: seq<Event>, t: State)
    requires Run(Initial(first), es, t)
    ensures t.down.shuts <= 1
    ensures 0 < t.down.shuts ==> t.down.written == MeshBytes(es) && !MayRecv(t.down.socket)
  {
    InvInitial(first);
    RunKeepsInv(Initial(first), es, t);
    Histories(Initial(first), es, t);
    assert [] + MeshBytes(es) == MeshBytes(es);
    assert t.down.written + ([] + []) == t.down.written;
  }

  // ---------------------------------------------------------------------------------
  // A relay that finishes first
  // ---------------------------------------------------------------------------------

  lemma FlagsStay(s: State, e: Event)
    requires Enabled(s, e)
    ensures s.localClosed ==> Next(s, e).localClosed
    ensures s.down.localShut ==> Next(s, e).down.localShut
    ensures s.down.localShut && !s.localClosed && !s.closeSent ==> !Next(s, e).closeSent
  {
  }

  lemma {:induction false} ClosedStays(s: State, es: seq<Event>, t: State)
    requires Run(s, es, t) && s.localClosed
    ensures t.localClosed
    decreases |es|
  {
    if es != [] {
      FlagsStay(s, es[0]);
      ClosedStays(Next(s, es[0]), es[1..], t);
    }
  }

  /** Once the local side is shut with the mesh side left open, only a local close ever closes it. */
  lemma {:induction false} OpenUntilLocalCloses(s: State, es: seq<Event>, t: State)
    requires Run(s, es, t) && s.down.localShut && !s.closeSent && !t.localClosed
    ensures !t.closeSent
    decreases |es|
  {
    if es != [] {
      if s.localClosed {
        ClosedStays(s, es, t);
      }
      FlagsStay(s, es[0]);
      OpenUntilLocalCloses(Next(s, es[0]), es[1..], t);
    }
  }

  /** A pass over the run that finds the local side closed and nothing waiting. */
  predicate DrainedPass(s: State, es: seq<Event>)
    decreases |es|
  {
    && es != [] && Enabled(s, es[0])
    && ((es[0].CloseIfDrained? && s.localClosed && s.up.toMesh == []) || DrainedPass(Next(s, es[0]), es[1..]))
  }

  /** With the local side shut already, nothing else closes the mesh socket, and nothing opens it again. */
  lemma CloseNeedsDrainedPass(s: State, e: Event)
    requires Enabled(s, e) && s.down.localShut
    ensures Next(s, e).closeSent <==> s.closeSent || (e.CloseIfDrained? && s.localClosed && s.up.toMesh == [])
  {
  }

  lemma {:induction false} ClosedByDrainedPass(s: State, es: seq<Event>, t: State)
    requires Run(s, es, t) && s.down.localShut
    ensures t.closeSent <==> s.closeSent || DrainedPass(s, es)
    decreases |es|
  {
    if es != [] {
      CloseNeedsDrainedPass(s, es[0]);
      FlagsStay(s, es[0]);
      ClosedByDrainedPass(Next(s, es[0]), es[1..], t);
    }
  }

  /** In every run on from the step that passes the relay's end of stream on: our side is closed exactly if it was by
      then, or nothing waited for it, or a later pass found the local side closed and nothing waiting. */
  lemma ClosedAfterFinishIff(s: State, es: seq<Event>, t: State)
    requires s.pc.Shutting? && RelayFinished(s.down) && Run(Next(s, ShutIfFinished), es, t)
    ensures t.closeSent <==> s.closeSent || s.up.toMesh == [] || DrainedPass(Next(s, ShutIfFinished), es)
  {
    ClosedByDrainedPass(Next(s, ShutIfFinished), es, t);
  }

  lemma {:induction false} DrainedPassMeansClosed(s: State, es: seq<Event>, t: State)
    requires Run(s, es, t) && DrainedPass(s, es)
    ensures t.localClosed
    decreases |es|
  {
    if s.localClosed {
      ClosedStays(s, es, t);
    } else {
      DrainedPassMeansClosed(Next(s, es[0]), es[1..], t);
    }
  }

  /** A later pass that finds nothing waiting leaves our side closed exactly if nothing waited when the relay finished
      or the local side has closed since. */
  lemma PromiseKeptIff(s: State, es: seq<Event>, t: State)
    requires s.pc.Shutting? && RelayFinished(s.down) && Run(Next(s, ShutIfFinished), es, t)
    requires t.pc.Closing? && t.up.toMesh == []
    ensures Next(t, CloseIfDrained).closeSent <==> s.closeSent || s.up.toMesh == [] || t.localClosed
  {
    ClosedAfterFinishIff(s, es, t);
    if DrainedPass(Next(s, ShutIfFinished), es) {
      DrainedPassMeansClosed(Next(s, ShutIfFinished), es, t);
    }
  }

  lemma {:induction false} RunJoined(s: State, es: seq<Event>, t: State, more: seq<Event>, u: State)
    requires Run(s, es, t) && Run(t, more, u)
    ensures Run(s, es + more, u)
    decreases |es|
  {
    if es == [] {
      assert [] + more == more;
    } else {
      RunJoined(Next(s, es[0]), es[1..], t, more, u);
      assert (es + more)[1..] == es[1..] + more;
    }
  }

  lemma RunOne(s: State, e: Event)
    requires Enabled(s, e)
    ensures Run(s, [e], Next(s, e))
  {
    assert [e][1..] == [];
    assert Run(Next(s, e), [], Next(s, e));
  }

  lemma RunFour(s: State, a: Event, b: Event, c: Event, d: Event) returns (t: State)
    requires Enabled(s, a) && Enabled(Next(s, a), b) && Enabled(Next(Next(s, a), b), c)
    requires Enabled(Next(Next(Next(s, a), b), c), d)
    ensures Run(s, [a, b, c, d], t) && t == Next(Next(Next(Next(s, a), b), c), d)
  {
    var s1 := Next(s, a);
    var s2 := Next(s1, b);
    var s3 := Next(s2, c);
    t := Next(s3, d);
    RunOne(s, a);
    RunOne(s1, b);
    RunOne(s2, c);
    RunOne(s3, d);
    RunJoined(s, [a], s1, [b], s2);
    RunJoined(s, [a] + [b], s2, [c], s3);
    RunJoined(s, [a] + [b] + [c], s3, [d], t);
    assert [a] + [b] + [c] + [d] == [a, b, c, d];
  }

  // ---- a run that leaves it open ----

  /** The reader reads a chunk, counts it and passes it on, and the loop takes it. */
  lemma OneChunk(s: State, c: seq<Byte>) returns (es: seq<Event>, t: State)
    requires (s.pc.Waiting? || s.pc.Draining?) && s.up.reader.Reading? && s.up.channel == []
    requires s.up.backlog <= TO_MESH_LIMIT && 0 < |c| <= READ
    ensures Run(s, es, t)
    ensures t == s.(pc := Draining, up := s.up.(backlog := s.up.backlog + |c|, toMesh := s.up.toMesh + c,
                                                input := s.up.input + c))
  {
    es := [Read(c), Add, Push, Take];
    t := RunFour(s, Read(c), Add, Push, Take);
    assert t.up.channel == [];
  }

  /** A read that fills the buffer. */
  const CHUNK: seq<Byte> := seq(READ, _ => 0)

  /** A state with nothing but `up.toMesh` between the two sides. */
  predicate Plain(s: State) {
    s.up.reader.Reading? && s.up.channel == [] && s.up.sentMesh + s.up.toMesh == s.up.input
  }

  /** `k` chunks one after the other. */
  lemma {:induction false} Fill(s: State, k: nat) returns (es: seq<Event>, t: State)
    requires (s.pc.Waiting? || s.pc.Draining?) && Plain(s) && s.up.backlog + k * READ <= TO_MESH_LIMIT
    ensures Run(s, es, t) && Plain(t) && t.down == s.down
    ensures t.localClosed == s.localClosed && t.closeSent == s.closeSent
    ensures t.pc == if k == 0 then s.pc else Draining
    ensures t.up.sentMesh == s.up.sentMesh && |t.up.toMesh| == |s.up.toMesh| + k * READ && s.up.input <= t.up.input
    decreases k
  {
    if k == 0 {
      es, t := [], s;
    } else {
      var one, m := OneChunk(s, CHUNK);
      Regrouped(s.up.sentMesh, s.up.toMesh, CHUNK);
      es, t := Fill(m, k - 1);
      RunJoined(s, one, m, es, t);
      es := one + es;
    }
  }

  lemma RunThree(s: State, a: Event, b: Event, c: Event)
    requires Enabled(s, a) && Enabled(Next(s, a), b) && Enabled(Next(Next(s, a), b), c)
    ensures Run(s, [a, b, c], Next(Next(Next(s, a), b), c))
  {
    var s1 := Next(s, a);
    var s2 := Next(s1, b);
    RunOne(s, a);
    RunOne(s1, b);
    RunOne(s2, c);
    RunJoined(s, [a], s1, [b], s2);
    RunJoined(s, [a] + [b], s2, [c], Next(s2, c));
    assert [a] + [b] + [c] == [a, b, c];
  }

  /** A pass before the relay answered moves nothing. */
  lemma PollSilence(s: State)
    requires s.pc.Polling? && s.down.socket.phase.SynSent? && s.down.socket.room <= SEND_BUFFER
    requires !s.localClosed && !s.down.established
    ensures var e := Poll(SynSent, false, [], s.down.socket.room);
      Enabled(s, e) && Next(s, e) == s.(pc := Sending, down := s.down.(socket := s.down.socket.(receiving := false)))
  {
    assert s.down.socket.rx + [] == s.down.socket.rx && s.down.arrived + [] == s.down.arrived;
  }

  lemma NothingMoves(s: State)
    requires s.pc.Sending? && !CanSend(s.down.socket, s.closeSent) && !s.localClosed && !CanRecv(s.down.socket)
    ensures Run(s, [Send(0), CloseIfDrained, Receive(0)], s.(pc := Writing))
  {
    RunThree(s, Send(0), CloseIfDrained, Receive(0));
  }

  lemma NothingFinishes(s: State)
    requires s.pc.Writing? && !s.down.established && !s.down.socket.phase.Closed?
    ensures Run(s, [Write(0), ShutIfFinished, Check], s.(pc := Waiting))
  {
    RunThree(s, Write(0), ShutIfFinished, Check);
  }

  lemma WaitForRelay(first: seq<Byte>) returns (es: seq<Event>, t: State)
    ensures Run(Initial(first), es, t) && t == Initial(first).(pc := Waiting)
  {
    var e := Poll(SynSent, false, [], SEND_BUFFER);
    PollSilence(Initial(first));
    var a := Initial(first).(pc := Sending);
    RunOne(Initial(first), e);
    NothingMoves(a);
    var b := a.(pc := Writing);
    NothingFinishes(b);
    t := b.(pc := Waiting);
    RunJoined(a, [Send(0), CloseIfDrained, Receive(0)], b, [Write(0), ShutIfFinished, Check], t);
    es := [Send(0), CloseIfDrained, Receive(0)] + [Write(0), ShutIfFinished, Check];
    RunJoined(Initial(first), [e], a, es, t);
    es := [e] + es;
  }

  const FINISHED := Poll(Connected, false, [], SEND_BUFFER)

  /** The relay connects and is finished already; what fits its buffer goes out, and the pass comes to its shut. */
  lemma SendSome(s: State, n: nat) returns (es: seq<Event>, t: State)
    requires (s.pc.Waiting? || s.pc.Draining?) && Plain(s) && !s.localClosed && !s.closeSent
    requires s.down.socket.phase.SynSent? || (s.down.socket.phase.Connected? && !s.down.socket.receiving)
    requires s.down.socket.rx == [] && s.down.toLocal == [] && s.down.socket.room <= SEND_BUFFER
    requires 0 < n <= |s.up.toMesh| && n <= SEND_BUFFER && (n < |s.up.toMesh| ==> n == SEND_BUFFER)
    ensures Run(s, es, t) && t.pc.Closing? && Plain(t) && !t.localClosed && !t.closeSent
    ensures t.up.toMesh == s.up.toMesh[n..] && t.up.input == s.up.input
    ensures t.down.socket.phase.Connected? && !MayRecv(t.down.socket) && t.down.socket.room <= SEND_BUFFER
    ensures t.down.established && t.down.toLocal == [] && t.down.localShut == s.down.localShut
  {
    var one := [Pause, FINISHED, Send(n), Credit];
    var m := RunFour(s, Pause, FINISHED, Send(n), Credit);
    Regrouped(s.up.sentMesh, s.up.toMesh[..n], s.up.toMesh[n..]);
    assert s.up.toMesh[..n] + s.up.toMesh[n..] == s.up.toMesh;
    RunOne(m, Send(0));
    t := Next(m, Send(0));
    RunJoined(s, one, m, [Send(0)], t);
    es := one + [Send(0)];
  }

  /** The rest goes out, and nothing closes our side behind it. */
  lemma SendRest(s: State) returns (es: seq<Event>, t: State)
    requires s.pc.Waiting? && Plain(s) && !s.localClosed && !s.closeSent
    requires s.down.socket.phase.Connected? && !MayRecv(s.down.socket) && s.down.socket.room <= SEND_BUFFER
    requires s.down.toLocal == [] && 0 < |s.up.toMesh| <= SEND_BUFFER
    ensures Run(s, es, t) && t.pc.Closing? && !t.localClosed && !Next(t, CloseIfDrained).closeSent
    ensures t.up.toMesh == [] && t.up.input == s.up.input == t.up.sentMesh
  {
    es, t := SendSome(s, |s.up.toMesh|);
    assert t.up.sentMesh + [] == t.up.sentMesh;
    StaysOpen(t);
  }

  lemma StaysOpen(s: State)
    requires s.pc.Closing? && !s.localClosed && !s.closeSent
    ensures !Next(s, CloseIfDrained).closeSent
  {
  }

  /** The end of stream passed on with bytes still waiting. */
  lemma ShutWithBytesWaiting(s: State) returns (shutting: seq<Event>, before: State, on: seq<Event>, t: State)
    requires s.pc.Closing? && Plain(s) && !s.localClosed && !s.closeSent && s.up.toMesh != []
    requires s.down.socket.phase.Connected? && !MayRecv(s.down.socket) && s.down.established
    requires s.down.toLocal == [] && !s.down.localShut && s.down.socket.room <= SEND_BUFFER
    ensures Run(s, shutting, before) && before.pc.Shutting? && RelayFinished(before.down) && before.up == s.up
    ensures Run(Next(before, ShutIfFinished), on, t) && t.pc.Waiting? && t.up == s.up
    ensures !t.localClosed && !t.closeSent && t.down == s.down.(localShut := true, shuts := s.down.shuts + 1)
  {
    shutting := [CloseIfDrained, Receive(0), Write(0)];
    RunThree(s, CloseIfDrained, Receive(0), Write(0));
    before := s.(pc := Shutting);
    on := [Check];
    t := Next(Next(before, ShutIfFinished), Check);
    RunOne(Next(before, ShutIfFinished), Check);
  }

  /** Any head and more bytes than the send buffer holds, half of it out when the relay finishes. */
  lemma FinishedEarly(first: seq<Byte>) returns (es: seq<Event>, s: State, on: seq<Event>, d: State)
    requires 0 < |first| <= SEND_BUFFER
    ensures Run(Initial(first), es, s) && s.pc.Shutting? && RelayFinished(s.down)
    ensures Run(Next(s, ShutIfFinished), on, d) && d.pc.Waiting? && Plain(d) && !d.localClosed && !d.closeSent
    ensures first <= d.up.input && |d.up.toMesh| == |first|
    ensures d.down.socket.phase.Connected? && !MayRecv(d.down.socket) && d.down.socket.room <= SEND_BUFFER
    ensures d.down.toLocal == []
  {
    var wait, a := WaitForRelay(first);
    assert [] + first == first;
    var fill, b := Fill(a, 4);
    RunJoined(Initial(first), wait, a, fill, b);
    var send, c := SendSome(b, SEND_BUFFER);
    RunJoined(Initial(first), wait + fill, b, send, c);
    var shutting;
    shutting, s, on, d := ShutWithBytesWaiting(c);
    RunJoined(Initial(first), wait + fill + send, c, shutting, s);
    es := wait + fill + send + shutting;
  }

  /** The relay finishes while some bytes still wait, they go out later, and the pass that then finds nothing waiting
      leaves the mesh side open. */
  lemma FinishedRelayLeftOpen(first: seq<Byte>) returns (es: seq<Event>, s: State, more: seq<Event>, t: State)
    requires 0 < |first| <= SEND_BUFFER
    ensures Run(Initial(first), es, s) && s.pc.Shutting? && RelayFinished(s.down)
    ensures Run(Next(s, ShutIfFinished), more, t) && t.pc.Closing? && t.up.toMesh == []
    ensures first <= t.up.input == t.up.sentMesh && !t.localClosed && !Next(t, CloseIfDrained).closeSent
  {
    var on, d;
    es, s, on, d := FinishedEarly(first);
    more, t := SendRest(d);
    RunJoined(Next(s, ShutIfFinished), on, d, more, t);
    more := on + more;
  }
}
