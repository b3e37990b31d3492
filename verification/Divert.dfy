/** Which in-process flow a packet off the mesh belongs to. */
module FlowKeys {
  import opened Bytes

  const TCP: Byte := 6
  const UDP: Byte := 17
  const ICMPV6: Byte := 58
  const UNREACHABLE: Byte := 1
  const ECHO_REQUEST: Byte := 128
  const ECHO_REPLY: Byte := 129

  /** Remote address, remote port, local port. */
  datatype Key = Key(remote: seq<Byte>, remotePort: U16, localPort: U16)

  predicate HasPorts(protocol: Byte) { protocol == TCP || protocol == UDP }

  predicate IsIpv6(p: seq<Byte>) { 44 <= |p| && p[0] / 16 == 6 }

  function FlowKey(p: seq<Byte>): Option<Key> {
    if !IsIpv6(p) then None
    else if HasPorts(p[6]) then Some(Key(p[8..24], U16At(p, 40), U16At(p, 42)))
    else if p[6] == ICMPV6 && p[40] == ECHO_REPLY && 48 <= |p| then Some(Key(p[8..24], 0, U16At(p, 44)))
    else if p[6] == ICMPV6 && p[40] == UNREACHABLE && 48 + 44 <= |p| && HasPorts(p[54]) then
      var q := p[48..];
      Some(Key(q[24..40], U16At(q, 42), U16At(q, 40)))
    else None
  }

  /** The fixed IPv6 header's addresses, section 3 of RFC 8200. */
  function Source(p: seq<Byte>): (a: seq<Byte>)
    requires |p| >= 40
    ensures |a| == 16
  {
    p[8..24]
  }

  function Destination(p: seq<Byte>): (a: seq<Byte>)
    requires |p| >= 40
    ensures |a| == 16
  {
    p[24..40]
  }

  /** `r` answers the segment or datagram `o`: the two ends exchanged. */
  predicate Answers(r: seq<Byte>, o: seq<Byte>) {
    && IsIpv6(o) && IsIpv6(r) && HasPorts(o[6]) && r[6] == o[6]
    && Source(r) == Destination(o) && Destination(r) == Source(o)
    && U16At(r, 40) == U16At(o, 42) && U16At(r, 42) == U16At(o, 40)
  }

  /** `e` is a destination unreachable message quoting the start of `o`, section 3.1 of RFC 4443. */
  predicate Refuses(e: seq<Byte>, o: seq<Byte>) {
    && IsIpv6(o) && IsIpv6(e) && HasPorts(o[6])
    && e[6] == ICMPV6 && e[40] == UNREACHABLE && 48 + 44 <= |e| <= 48 + |o| && e[48..] == o[..|e| - 48]
  }

  /** `r` is the echo reply to the echo request `o`, section 4.2 of RFC 4443. */
  predicate Echoes(r: seq<Byte>, o: seq<Byte>) {
    && IsIpv6(o) && IsIpv6(r) && 48 <= |o| && 48 <= |r|
    && o[6] == ICMPV6 && o[40] == ECHO_REQUEST && r[6] == ICMPV6 && r[40] == ECHO_REPLY
    && Source(r) == Destination(o) && U16At(r, 44) == U16At(o, 44)
  }

  /** Whatever comes back for a packet sent carries the key of the flow it was sent from, and of no other. */
  lemma RepliesShareKey(o: seq<Byte>, back: seq<Byte>)
    ensures Answers(back, o) || Refuses(back, o) ==>
      FlowKey(back) == Some(Key(Destination(o), U16At(o, 42), U16At(o, 40)))
    ensures Echoes(back, o) ==> FlowKey(back) == Some(Key(Destination(o), 0, U16At(o, 44)))
  {
    if Refuses(back, o) {
      var n := |back| - 48;
      assert back[54] == back[48..][6] == o[..n][6] == o[6];
      assert back[48..][24..40] == o[..n][24..40] == o[24..40];
      assert forall i :: 40 <= i < 44 ==> back[48..][i] == o[i];
    }
  }

  /** A packet answers or refuses only packets of the flow its key names. */
  lemma KeyNamesSender(o: seq<Byte>, other: seq<Byte>, back: seq<Byte>)
    requires Answers(back, o) || Refuses(back, o)
    requires Answers(back, other) || Refuses(back, other)
    ensures Destination(o) == Destination(other) && U16At(o, 42) == U16At(other, 42) && U16At(o, 40) == U16At(other, 40)
  {
    RepliesShareKey(o, back);
    RepliesShareKey(other, back);
  }
}

/** Opening, claiming and dropping flows, interleaved. */
module DivertProtocol {
  import opened Bytes
  import opened FlowKeys

  const FIRST_PORT: nat := 61000
  const SPAN: nat := 65535 - 61000 + 1

  /** The i-th local port tried when the search starts at `first`. */
  function PortTried(first: nat, i: nat): (port: U16)
    ensures FIRST_PORT <= port < FIRST_PORT + SPAN
  {
    FIRST_PORT + (first + i) % SPAN
  }

  function KeyTried(remote: seq<Byte>, port: U16, first: nat, i: nat): Key {
    Key(remote, port, PortTried(first, i))
  }

  /** The key `open` takes when `i` ports were tried already. */
  function PickFrom(taken: set<Key>, remote: seq<Byte>, port: U16, first: nat, i: nat): (key: Option<Key>)
    requires i <= SPAN
    decreases SPAN - i
  {
    if i == SPAN then None
    else if KeyTried(remote, port, first, i) !in taken then Some(KeyTried(remote, port, first, i))
    else PickFrom(taken, remote, port, first, i + 1)
  }

  predicate Local(port: U16) { FIRST_PORT <= port <= 65535 }

  /** Every local port is tried. */
  lemma EveryPortTried(first: nat, port: U16) returns (i: nat)
    requires Local(port)
    ensures i < SPAN && PortTried(first, i) == port
  {
    var want, at := port - FIRST_PORT, first % SPAN;
    i := if at <= want then want - at else want - at + SPAN;
    assert first + i == first / SPAN * SPAN + at + i;
    assert at + i == want || at + i == want + SPAN;
    ModuloOf(first / SPAN, want);
    ModuloOf(first / SPAN + 1, want);
  }

  lemma ModuloOf(k: nat, r: nat)
    requires r < SPAN
    ensures (k * SPAN + r) % SPAN == r
  {
  }

  lemma {:induction false} PickWorks(taken: set<Key>, remote: seq<Byte>, port: U16, first: nat, i: nat)
    requires i <= SPAN
    ensures var key := PickFrom(taken, remote, port, first, i);
      && (key.Some? ==> key.value !in taken && key.value.remote == remote && key.value.remotePort == port
                        && Local(key.value.localPort))
      && (key.None? ==> forall j :: i <= j < SPAN ==> KeyTried(remote, port, first, j) in taken)
    decreases SPAN - i
  {
    if i < SPAN {
      PickWorks(taken, remote, port, first, i + 1);
    }
  }

  lemma PickIsFree(taken: set<Key>, remote: seq<Byte>, port: U16, first: nat)
    ensures var key := PickFrom(taken, remote, port, first, 0); key.Some? ==> key.value !in taken
  {
    PickWorks(taken, remote, port, first, 0);
  }

  /** Opening fails exactly when all 4536 local ports towards that remote port are in use. */
  lemma PickFailsIffExhausted(taken: set<Key>, remote: seq<Byte>, port: U16, first: nat)
    ensures PickFrom(taken, remote, port, first, 0).None?
       <==> forall p: U16 :: Local(p) ==> Key(remote, port, p) in taken
  {
    PickWorks(taken, remote, port, first, 0);
    var key := PickFrom(taken, remote, port, first, 0);
    if key.None? {
      forall p: U16 | Local(p)
        ensures Key(remote, port, p) in taken
      {
        var i := EveryPortTried(first, p);
        assert KeyTried(remote, port, first, i) in taken;
      }
    } else {
      assert key.value == Key(remote, port, key.value.localPort);
    }
  }

  /** One call each: a flow from `open` to the end of its guard's drop, or one `claim`. */
  datatype Thread =
    | Opening(remote: seq<Byte>, port: U16, first: nat)
    | Inserted(key: Key)                  // in the table, not counted, lock held
    | Open(key: Key)                      // `open` returned
    | Removed(key: Key, queue: seq<nat>)  // out of the table, still counted
    | Closed(key: Key, queue: seq<nat>)
    | Refused                             // no free port
    | Loading(packet: seq<Byte>)          // about to read the counter
    | Looking(packet: seq<Byte>, wanted: Key)
    | Claimed(packet: seq<Byte>, flow: nat)
    | GivenBack(packet: seq<Byte>)

  /** An entry of the table: the thread that opened the flow, and the claimers whose packets are queued to it. */
  datatype Flow = Flow(owner: nat, queue: seq<nat>)

  datatype Claim = Claim(claimer: nat, flow: nat)

  datatype State = State(
    active: nat,
    flows: map<Key, Flow>,
    locked: bool,
    threads: seq<Thread>,
    // history
    claims: seq<Claim>)                   // in the order the packets were queued

  datatype Event =
    | BeginOpen(remote: seq<Byte>, port: U16, first: nat)
    | BeginClaim(packet: seq<Byte>)
    | Step(t: nat)                        // the thread goes on; an open flow's guard drops

  const INITIAL := State(0, map[], false, [], [])

  const USIZE_MAX: nat := 0xffff_ffff_ffff_ffff

  predicate NeedsLock(th: Thread) { th.Opening? || th.Open? || th.Looking? }

  predicate Done(th: Thread) { th.Closed? || th.Refused? || th.Claimed? || th.GivenBack? }

  predicate InTable(th: Thread) { th.Inserted? || th.Open? }

  predicate InCount(th: Thread) { th.Open? || th.Removed? }

  predicate Enabled(s: State, e: Event) {
    match e
    case BeginOpen(_, _, _) => true
    case BeginClaim(_) => true
    case Step(t) =>
      && t < |s.threads| && !Done(s.threads[t])
      && (NeedsLock(s.threads[t]) ==> !s.locked)
      && (InTable(s.threads[t]) ==> s.threads[t].key in s.flows)
  }

  function Stepped(s: State, t: nat, th: Thread): State
    requires t < |s.threads|
  {
    s.(threads := s.threads[t := th])
  }

  function OpenStep(s: State, t: nat): State
    requires t < |s.threads| && s.threads[t].Opening?
  {
    var th := s.threads[t];
    var key := PickFrom(s.flows.Keys, th.remote, th.port, th.first, 0);
    if key.None? then Stepped(s, t, Refused) else Taken(s, t, key.value)
  }

  /** `key` goes to the flow of thread `t`, the lock still held. */
  function Taken(s: State, t: nat, key: Key): State
    requires t < |s.threads|
  {
    Stepped(s.(flows := s.flows[key := Flow(t, [])], locked := true), t, Inserted(key))
  }

  function LoadStep(s: State, t: nat): State
    requires t < |s.threads| && s.threads[t].Loading?
  {
    var packet := s.threads[t].packet;
    if s.active == 0 || FlowKey(packet).None? then Stepped(s, t, GivenBack(packet))
    else Stepped(s, t, Looking(packet, FlowKey(packet).value))
  }

  function ClaimStep(s: State, t: nat): State
    requires t < |s.threads| && s.threads[t].Looking?
  {
    var th := s.threads[t];
    if th.wanted !in s.flows then Stepped(s, t, GivenBack(th.packet))
    else
      var flow := s.flows[th.wanted];
      Stepped(s.(flows := s.flows[th.wanted := flow.(queue := flow.queue + [t])],
                 claims := s.claims + [Claim(t, flow.owner)]), t, Claimed(th.packet, flow.owner))
  }

  function RemoveStep(s: State, t: nat): State
    requires t < |s.threads| && s.threads[t].Open? && s.threads[t].key in s.flows
  {
    var key := s.threads[t].key;
    Stepped(s.(flows := s.flows - {key}), t, Removed(key, s.flows[key].queue))
  }

  /** fetch_sub, wrapping as usize does. */
  function Decrement(active: nat): nat {
    if active == 0 then USIZE_MAX else active - 1
  }

  function Next(s: State, e: Event): State
    requires Enabled(s, e)
  {
    match e
    case BeginOpen(remote, port, first) => s.(threads := s.threads + [Opening(remote, port, first)])
    case BeginClaim(packet) => s.(threads := s.threads + [Loading(packet)])
    case Step(t) =>
      match s.threads[t]
      case Opening(_, _, _) => OpenStep(s, t)
      case Inserted(key) => Stepped(s.(active := s.active + 1, locked := false), t, Open(key))
      case Open(_) => RemoveStep(s, t)
      case Removed(key, queue) => Stepped(s.(active := Decrement(s.active)), t, Closed(key, queue))
      case Loading(_) => LoadStep(s, t)
      case Looking(_, _) => ClaimStep(s, t)
  }

  ghost predicate Run(s: State, es: seq<Event>, t: State)
    decreases |es|
  {
    if es == [] then s == t else Enabled(s, es[0]) && Run(Next(s, es[0]), es[1..], t)
  }

  lemma {:induction false} RunThen(s: State, es: seq<Event>, t: State, e: Event)
    requires Run(s, es, t) && Enabled(t, e)
    ensures Run(s, es + [e], Next(t, e))
    decreases |es|
  {
    if es == [] {
      assert ([] + [e])[1..] == [];
    } else {
      RunThen(Next(s, es[0]), es[1..], t, e);
      assert (es + [e])[1..] == es[1..] + [e];
    }
  }

  predicate SameTable(s: State, u: State) {
    s.active == u.active && s.flows == u.flows && s.locked == u.locked && s.threads == u.threads
  }

  /** The history decides nothing. */
  lemma HistoryIsHistory(s: State, u: State, e: Event)
    requires SameTable(s, u) && Enabled(s, e)
    ensures Enabled(u, e) && SameTable(Next(s, e), Next(u, e))
  {
  }

  // ---------------------------------------------------------------------------------
  // The invariant
  // ---------------------------------------------------------------------------------

  /** Whether a thread is in the count, or in the table. */
  function Weight(th: Thread, counted: bool): nat {
    if (if counted then InCount(th) else InTable(th)) then 1 else 0
  }

  /** How many are. */
  function Tally(threads: seq<Thread>, counted: bool): nat {
    if threads == [] then 0 else Weight(threads[0], counted) + Tally(threads[1..], counted)
  }

  ghost predicate TableRight(flows: map<Key, Flow>, threads: seq<Thread>) {
    && (forall k :: k in flows ==>
          flows[k].owner < |threads| && InTable(threads[flows[k].owner]) && threads[flows[k].owner].key == k)
    && (forall i :: 0 <= i < |threads| && InTable(threads[i]) ==>
          threads[i].key in flows && flows[threads[i].key].owner == i)
  }

  /** The counter: open flows, and drops between their removal and their decrement. */
  predicate CountRight(active: nat, flows: map<Key, Flow>, threads: seq<Thread>) {
    active == Tally(threads, true) && |flows| == Tally(threads, false)
  }

  ghost predicate LockRight(locked: bool, threads: seq<Thread>) {
    && (forall i, j :: 0 <= i < j < |threads| ==> !(threads[i].Inserted? && threads[j].Inserted?))
    && (locked <==> exists i :: 0 <= i < |threads| && threads[i].Inserted?)
  }

  /** The claimer, if its packet went to flow `i`. */
  function By(c: Claim, i: nat): seq<nat> { if c.flow == i then [c.claimer] else [] }

  /** The claimers whose packets went to flow `i`, in order. */
  function ToFlow(claims: seq<Claim>, i: nat): seq<nat> {
    if claims == [] then [] else By(claims[0], i) + ToFlow(claims[1..], i)
  }

  predicate HasKey(th: Thread) { th.Inserted? || th.Open? || th.Removed? || th.Closed? }

  /** What was queued to a flow: in its table entry, and once dropped with its thread. */
  function Received(flows: map<Key, Flow>, th: Thread): seq<nat> {
    if th.Removed? || th.Closed? then th.queue
    else if InTable(th) && th.key in flows then flows[th.key].queue
    else []
  }

  ghost predicate QueuesRight(flows: map<Key, Flow>, threads: seq<Thread>, claims: seq<Claim>) {
    forall i :: 0 <= i < |threads| ==> Received(flows, threads[i]) == ToFlow(claims, i)
  }

  /** A claim sent the packet of a thread that is through to the one flow with the packet's key. */
  predicate ClaimRight(threads: seq<Thread>, c: Claim) {
    && c.claimer < |threads| && c.flow < |threads| && HasKey(threads[c.flow])
    && threads[c.claimer].Claimed? && threads[c.claimer].flow == c.flow
    && FlowKey(threads[c.claimer].packet) == Some(threads[c.flow].key)
  }

  ghost predicate ClaimsRight(threads: seq<Thread>, claims: seq<Claim>) {
    && (forall a :: 0 <= a < |claims| ==> ClaimRight(threads, claims[a]))
    && (forall a, b :: 0 <= a < b < |claims| ==> claims[a].claimer != claims[b].claimer)
    && (forall i :: 0 <= i < |threads| && threads[i].Claimed? ==> Claim(i, threads[i].flow) in claims)
  }

  predicate LookRight(th: Thread) {
    th.Looking? ==> FlowKey(th.packet) == Some(th.wanted)
  }

  ghost predicate LookingRight(threads: seq<Thread>) {
    forall i :: 0 <= i < |threads| ==> LookRight(threads[i])
  }

  ghost predicate Inv(s: State) {
    && TableRight(s.flows, s.threads) && CountRight(s.active, s.flows, s.threads) && LockRight(s.locked, s.threads)
    && QueuesRight(s.flows, s.threads, s.claims) && ClaimsRight(s.threads, s.claims) && LookingRight(s.threads)
  }

  lemma {:induction false} TallyAppend(threads: seq<Thread>, th: Thread, counted: bool)
    ensures Tally(threads + [th], counted) == Tally(threads, counted) + Weight(th, counted)
  {
    if threads == [] {
      assert (threads + [th])[1..] == [];
    } else {
      assert (threads + [th])[1..] == threads[1..] + [th];
      TallyAppend(threads[1..], th, counted);
    }
  }

  lemma {:induction false} TallyUpdate(threads: seq<Thread>, t: nat, th: Thread, counted: bool)
    requires t < |threads|
    ensures Tally(threads[t := th], counted) + Weight(threads[t], counted)
         == Tally(threads, counted) + Weight(th, counted)
  {
    if t == 0 {
      assert threads[0 := th][1..] == threads[1..];
    } else {
      assert threads[t := th][1..] == threads[1..][t - 1 := th];
      TallyUpdate(threads[1..], t - 1, th, counted);
    }
  }

  lemma {:induction false} ToFlowAppend(claims: seq<Claim>, c: Claim, i: nat)
    ensures ToFlow(claims + [c], i) == ToFlow(claims, i) + By(c, i)
  {
    var both := claims + [c];
    if claims == [] {
      assert both[1..] == [];
    } else {
      assert both[1..] == claims[1..] + [c];
      ToFlowAppend(claims[1..], c, i);
    }
  }

  lemma {:induction false} ToFlowNone(claims: seq<Claim>, i: nat)
    requires forall a :: 0 <= a < |claims| ==> claims[a].flow != i
    ensures ToFlow(claims, i) == []
  {
    if claims != [] {
      ToFlowNone(claims[1..], i);
    }
  }

  // ---- each part of it, step by step ----

  lemma TableBegin(flows: map<Key, Flow>, threads: seq<Thread>, th: Thread)
    requires TableRight(flows, threads) && !InTable(th)
    ensures TableRight(flows, threads + [th])
  {
  }

  /** A thread outside the table moves, or one inside it keeps its key. */
  lemma TableUpdate(flows: map<Key, Flow>, threads: seq<Thread>, t: nat, th: Thread)
    requires TableRight(flows, threads) && t < |threads|
    requires InTable(th) == InTable(threads[t]) && (InTable(th) ==> th.key == threads[t].key)
    ensures TableRight(flows, threads[t := th])
  {
  }

  lemma TableInsert(flows: map<Key, Flow>, threads: seq<Thread>, t: nat, key: Key)
    requires TableRight(flows, threads) && t < |threads| && !InTable(threads[t]) && key !in flows
    ensures TableRight(flows[key := Flow(t, [])], threads[t := Inserted(key)])
  {
  }

  lemma TableRemove(flows: map<Key, Flow>, threads: seq<Thread>, t: nat, th: Thread)
    requires TableRight(flows, threads) && t < |threads| && InTable(threads[t]) && !InTable(th)
    ensures TableRight(flows - {threads[t].key}, threads[t := th])
  {
  }

  lemma TableQueue(flows: map<Key, Flow>, threads: seq<Thread>, key: Key, queue: seq<nat>)
    requires TableRight(flows, threads) && key in flows
    ensures TableRight(flows[key := Flow(flows[key].owner, queue)], threads)
  {
  }

  lemma CountUpdate(active: nat, flows: map<Key, Flow>, threads: seq<Thread>, t: nat, th: Thread,
                    count: nat, table: map<Key, Flow>)
    requires CountRight(active, flows, threads) && t < |threads|
    requires count + Weight(threads[t], true) == active + Weight(th, true)
    requires |table| + Weight(threads[t], false) == |flows| + Weight(th, false)
    ensures CountRight(count, table, threads[t := th])
  {
    TallyUpdate(threads, t, th, true);
    TallyUpdate(threads, t, th, false);
  }

  /** A drop in progress is counted, so the decrement does not wrap. */
  lemma {:induction false} RemovedIsCounted(threads: seq<Thread>, t: nat)
    requires t < |threads| && InCount(threads[t])
    ensures 0 < Tally(threads, true)
  {
    if t != 0 {
      RemovedIsCounted(threads[1..], t - 1);
    }
  }

  lemma LockUpdate(locked: bool, threads: seq<Thread>, t: nat, th: Thread)
    requires LockRight(locked, threads) && t < |threads| && !threads[t].Inserted? && !th.Inserted?
    ensures LockRight(locked, threads[t := th])
  {
    if locked {
      var i :| 0 <= i < |threads| && threads[i].Inserted?;
      assert threads[t := th][i].Inserted?;
    }
  }

  lemma LockBegin(locked: bool, threads: seq<Thread>, th: Thread)
    requires LockRight(locked, threads) && !th.Inserted?
    ensures LockRight(locked, threads + [th])
  {
    if locked {
      var i :| 0 <= i < |threads| && threads[i].Inserted?;
      assert (threads + [th])[i].Inserted?;
    }
  }

  lemma LockTake(threads: seq<Thread>, t: nat, key: Key)
    requires LockRight(false, threads) && t < |threads|
    ensures LockRight(true, threads[t := Inserted(key)])
  {
    assert threads[t := Inserted(key)][t].Inserted?;
  }

  lemma LockRelease(locked: bool, threads: seq<Thread>, t: nat, th: Thread)
    requires LockRight(locked, threads) && t < |threads| && threads[t].Inserted? && !th.Inserted?
    ensures LockRight(false, threads[t := th])
  {
  }

  lemma QueuesBegin(flows: map<Key, Flow>, threads: seq<Thread>, claims: seq<Claim>, th: Thread)
    requires QueuesRight(flows, threads, claims) && ClaimsRight(threads, claims) && !HasKey(th)
    ensures QueuesRight(flows, threads + [th], claims)
  {
    assert forall a :: 0 <= a < |claims| ==> ClaimRight(threads, claims[a]);
    ToFlowNone(claims, |threads|);
  }

  /** A step that leaves everybody's packets where they were. */
  lemma QueuesUpdate(flows: map<Key, Flow>, table: map<Key, Flow>, threads: seq<Thread>, claims: seq<Claim>,
                     t: nat, th: Thread)
    requires QueuesRight(flows, threads, claims) && t < |threads|
    requires Received(table, th) == Received(flows, threads[t])
    requires forall i :: 0 <= i < |threads| && i != t ==> Received(table, threads[i]) == Received(flows, threads[i])
    ensures QueuesRight(table, threads[t := th], claims)
  {
  }

  lemma QueuesClaim(flows: map<Key, Flow>, threads: seq<Thread>, claims: seq<Claim>, t: nat, key: Key)
    requires QueuesRight(flows, threads, claims) && TableRight(flows, threads)
    requires t < |threads| && threads[t].Looking? && key in flows
    ensures var f := flows[key];
      QueuesRight(flows[key := Flow(f.owner, f.queue + [t])], threads[t := Claimed(threads[t].packet, f.owner)],
                  claims + [Claim(t, f.owner)])
  {
    var f := flows[key];
    var table, n := flows[key := Flow(f.owner, f.queue + [t])], threads[t := Claimed(threads[t].packet, f.owner)];
    forall i | 0 <= i < |n|
      ensures Received(table, n[i]) == ToFlow(claims + [Claim(t, f.owner)], i)
    {
      ToFlowAppend(claims, Claim(t, f.owner), i);
      assert Received(flows, threads[i]) == ToFlow(claims, i);
      ReceivedMore(flows, threads, t, key, i);
    }
  }

  lemma ReceivedMore(flows: map<Key, Flow>, threads: seq<Thread>, t: nat, key: Key, i: nat)
    requires TableRight(flows, threads) && i < |threads|
    requires t < |threads| && threads[t].Looking? && key in flows
    ensures var f := flows[key];
      var table, n := flows[key := Flow(f.owner, f.queue + [t])], threads[t := Claimed(threads[t].packet, f.owner)];
      Received(table, n[i]) == Received(flows, threads[i]) + if i == f.owner then [t] else []
  {
  }

  predicate SameRole(th: Thread, next: Thread) {
    && !th.Claimed? && !next.Claimed?
    && (HasKey(th) ==> HasKey(next) && next.key == th.key)
  }

  lemma ClaimsUpdate(threads: seq<Thread>, claims: seq<Claim>, t: nat, th: Thread)
    requires ClaimsRight(threads, claims) && t < |threads| && SameRole(threads[t], th)
    ensures ClaimsRight(threads[t := th], claims)
  {
    forall a | 0 <= a < |claims|
      ensures ClaimRight(threads[t := th], claims[a])
    {
      assert ClaimRight(threads, claims[a]);
    }
  }

  lemma ClaimsBegin(threads: seq<Thread>, claims: seq<Claim>, th: Thread)
    requires ClaimsRight(threads, claims) && !th.Claimed?
    ensures ClaimsRight(threads + [th], claims)
  {
    forall a | 0 <= a < |claims|
      ensures ClaimRight(threads + [th], claims[a])
    {
      assert ClaimRight(threads, claims[a]);
    }
  }

  lemma ClaimsClaim(threads: seq<Thread>, claims: seq<Claim>, t: nat, flow: nat)
    requires ClaimsRight(threads, claims) && t < |threads| && threads[t].Looking? && LookRight(threads[t])
    requires flow < |threads| && InTable(threads[flow]) && threads[flow].key == threads[t].wanted
    ensures ClaimsRight(threads[t := Claimed(threads[t].packet, flow)], claims + [Claim(t, flow)])
  {
    var n, more := threads[t := Claimed(threads[t].packet, flow)], claims + [Claim(t, flow)];
    forall a | 0 <= a < |claims|
      ensures ClaimRight(n, claims[a]) && claims[a].claimer != t
    {
      assert ClaimRight(threads, claims[a]);
    }
    assert ClaimRight(n, Claim(t, flow));
    forall i | 0 <= i < |n| && n[i].Claimed?
      ensures Claim(i, n[i].flow) in more
    {
      if i == t {
        assert more[|claims|] == Claim(i, n[i].flow);
      } else {
        assert Claim(i, threads[i].flow) in claims;
      }
    }
  }

  lemma LookingUpdate(threads: seq<Thread>, t: nat, th: Thread)
    requires LookingRight(threads) && t < |threads| && LookRight(th)
    ensures LookingRight(threads[t := th])
  {
  }

  // ---- together ----

  lemma BeginKeepsInv(s: State, th: Thread)
    requires Inv(s) && (th.Opening? || th.Loading?)
    ensures Inv(s.(threads := s.threads + [th]))
  {
    TableBegin(s.flows, s.threads, th);
    TallyAppend(s.threads, th, true);
    TallyAppend(s.threads, th, false);
    LockBegin(s.locked, s.threads, th);
    QueuesBegin(s.flows, s.threads, s.claims, th);
    ClaimsBegin(s.threads, s.claims, th);
  }

  /** A step of a thread on its own: nothing but its place changes. */
  lemma PlainKeepsInv(s: State, t: nat, th: Thread)
    requires Inv(s) && t < |s.threads| && LookRight(th)
    requires !HasKey(s.threads[t]) && !s.threads[t].Claimed? && !HasKey(th) && !th.Claimed?
    ensures Inv(Stepped(s, t, th))
  {
    TableUpdate(s.flows, s.threads, t, th);
    CountUpdate(s.active, s.flows, s.threads, t, th, s.active, s.flows);
    LockUpdate(s.locked, s.threads, t, th);
    QueuesUpdate(s.flows, s.flows, s.threads, s.claims, t, th);
    ClaimsUpdate(s.threads, s.claims, t, th);
    LookingUpdate(s.threads, t, th);
  }

  lemma InsertKeepsInv(s: State, t: nat, key: Key)
    requires Inv(s) && t < |s.threads| && s.threads[t].Opening? && !s.locked && key !in s.flows
    ensures Inv(Taken(s, t, key))
  {
    var table := s.flows[key := Flow(t, [])];
    TableInsert(s.flows, s.threads, t, key);
    assert table.Keys == s.flows.Keys + {key};
    CountUpdate(s.active, s.flows, s.threads, t, Inserted(key), s.active, table);
    LockTake(s.threads, t, key);
    forall i | 0 <= i < |s.threads| && i != t
      ensures Received(table, s.threads[i]) == Received(s.flows, s.threads[i])
    {
    }
    QueuesUpdate(s.flows, table, s.threads, s.claims, t, Inserted(key));
    ClaimsUpdate(s.threads, s.claims, t, Inserted(key));
    LookingUpdate(s.threads, t, Inserted(key));
  }

  lemma CountKeepsInv(s: State, t: nat)
    requires Inv(s) && t < |s.threads| && s.threads[t].Inserted?
    ensures Inv(Stepped(s.(active := s.active + 1, locked := false), t, Open(s.threads[t].key)))
  {
    var th := Open(s.threads[t].key);
    TableUpdate(s.flows, s.threads, t, th);
    CountUpdate(s.active, s.flows, s.threads, t, th, s.active + 1, s.flows);
    LockRelease(s.locked, s.threads, t, th);
    QueuesUpdate(s.flows, s.flows, s.threads, s.claims, t, th);
    ClaimsUpdate(s.threads, s.claims, t, th);
    LookingUpdate(s.threads, t, th);
  }

  lemma RemoveKeepsInv(s: State, t: nat)
    requires Inv(s) && t < |s.threads| && s.threads[t].Open? && s.threads[t].key in s.flows
    ensures Inv(RemoveStep(s, t))
  {
    var key := s.threads[t].key;
    var table, th := s.flows - {key}, Removed(key, s.flows[key].queue);
    TableRemove(s.flows, s.threads, t, th);
    assert table.Keys == s.flows.Keys - {key};
    CountUpdate(s.active, s.flows, s.threads, t, th, s.active, table);
    LockUpdate(s.locked, s.threads, t, th);
    forall i | 0 <= i < |s.threads| && i != t
      ensures Received(table, s.threads[i]) == Received(s.flows, s.threads[i])
    {
    }
    QueuesUpdate(s.flows, table, s.threads, s.claims, t, th);
    ClaimsUpdate(s.threads, s.claims, t, th);
    LookingUpdate(s.threads, t, th);
  }

  lemma DecrementKeepsInv(s: State, t: nat)
    requires Inv(s) && t < |s.threads| && s.threads[t].Removed?
    ensures 0 < s.active
    ensures Inv(Stepped(s.(active := s.active - 1), t, Closed(s.threads[t].key, s.threads[t].queue)))
  {
    var th := Closed(s.threads[t].key, s.threads[t].queue);
    RemovedIsCounted(s.threads, t);
    TableUpdate(s.flows, s.threads, t, th);
    CountUpdate(s.active, s.flows, s.threads, t, th, s.active - 1, s.flows);
    LockUpdate(s.locked, s.threads, t, th);
    QueuesUpdate(s.flows, s.flows, s.threads, s.claims, t, th);
    ClaimsUpdate(s.threads, s.claims, t, th);
    LookingUpdate(s.threads, t, th);
  }

  lemma ClaimKeepsInv(s: State, t: nat)
    requires Inv(s) && t < |s.threads| && s.threads[t].Looking? && s.threads[t].wanted in s.flows
    ensures Inv(ClaimStep(s, t))
  {
    var key := s.threads[t].wanted;
    var f := s.flows[key];
    var table, th := s.flows[key := Flow(f.owner, f.queue + [t])], Claimed(s.threads[t].packet, f.owner);
    TableUpdate(s.flows, s.threads, t, th);
    TableQueue(s.flows, s.threads[t := th], key, f.queue + [t]);
    assert table.Keys == s.flows.Keys;
    CountUpdate(s.active, s.flows, s.threads, t, th, s.active, table);
    LockUpdate(s.locked, s.threads, t, th);
    QueuesClaim(s.flows, s.threads, s.claims, t, key);
    assert LookRight(s.threads[t]);
    ClaimsClaim(s.threads, s.claims, t, f.owner);
    LookingUpdate(s.threads, t, th);
  }

  lemma OpenKeepsInv(s: State, t: nat)
    requires Inv(s) && t < |s.threads| && s.threads[t].Opening? && !s.locked
    ensures Inv(OpenStep(s, t))
  {
    var th := s.threads[t];
    PickIsFree(s.flows.Keys, th.remote, th.port, th.first);
    var key := PickFrom(s.flows.Keys, th.remote, th.port, th.first, 0);
    if key.None? {
      PlainKeepsInv(s, t, Refused);
    } else {
      InsertKeepsInv(s, t, key.value);
    }
  }

  lemma LoadKeepsInv(s: State, t: nat)
    requires Inv(s) && t < |s.threads| && s.threads[t].Loading?
    ensures Inv(LoadStep(s, t))
  {
    var key := FlowKey(s.threads[t].packet);
    if s.active == 0 || key.None? {
      PlainKeepsInv(s, t, GivenBack(s.threads[t].packet));
    } else {
      PlainKeepsInv(s, t, Looking(s.threads[t].packet, key.value));
    }
  }

  lemma LookKeepsInv(s: State, t: nat)
    requires Inv(s) && t < |s.threads| && s.threads[t].Looking?
    ensures Inv(ClaimStep(s, t))
  {
    if s.threads[t].wanted in s.flows {
      ClaimKeepsInv(s, t);
    } else {
      PlainKeepsInv(s, t, GivenBack(s.threads[t].packet));
    }
  }

  lemma StepKeepsInv(s: State, e: Event)
    requires Inv(s) && Enabled(s, e)
    ensures Inv(Next(s, e))
  {
    match e {
      case BeginOpen(remote, port, first) => BeginKeepsInv(s, Opening(remote, port, first));
      case BeginClaim(packet) => BeginKeepsInv(s, Loading(packet));
      case Step(t) =>
        match s.threads[t] {
          case Opening(_, _, _) => OpenKeepsInv(s, t);
          case Inserted(_) => CountKeepsInv(s, t);
          case Open(_) => RemoveKeepsInv(s, t);
          case Removed(_, _) => DecrementKeepsInv(s, t);
          case Loading(_) => LoadKeepsInv(s, t);
          case Looking(_, _) => LookKeepsInv(s, t);
        }
    }
  }

  lemma {:induction false} RunKeepsInv(s: State, es: seq<Event>, t: State)
    requires Inv(s) && Run(s, es, t)
    ensures Inv(t)
    decreases |es|
  {
    if es != [] {
      StepKeepsInv(s, es[0]);
      RunKeepsInv(Next(s, es[0]), es[1..], t);
    }
  }

  // ---------------------------------------------------------------------------------
  // Main results
  // ---------------------------------------------------------------------------------

  /** The counter is the open flows plus the drops under way: the table's size, but for the steps in between. */
  lemma CounterIsOpenAndDropping(es: seq<Event>, t: State)
    requires Run(INITIAL, es, t)
    ensures t.active == Tally(t.threads, true) && |t.flows| == Tally(t.threads, false)
    ensures forall i :: 0 <= i < |t.threads| && t.threads[i].Removed? ==> 0 < t.active
  {
    RunKeepsInv(INITIAL, es, t);
    forall i | 0 <= i < |t.threads| && t.threads[i].Removed?
      ensures 0 < t.active
    {
      RemovedIsCounted(t.threads, i);
    }
  }

  /** A claim that skips the table on a zero counter has skipped no flow whose `open` has returned. */
  lemma FastPathSkipsNothing(es: seq<Event>, t: State)
    requires Run(INITIAL, es, t) && t.active == 0
    ensures forall i :: 0 <= i < |t.threads| ==> !t.threads[i].Open?
    ensures t.flows != map[] ==> t.locked
  {
    RunKeepsInv(INITIAL, es, t);
    forall i | 0 <= i < |t.threads|
      ensures !InCount(t.threads[i])
    {
      if InCount(t.threads[i]) {
        RemovedIsCounted(t.threads, i);
      }
    }
    if k :| k in t.flows {
      assert t.threads[t.flows[k].owner].Inserted?;
    }
  }

  /** A packet for a flow that is open goes to that flow, whatever else runs. */
  lemma OpenFlowGetsPacket(es: seq<Event>, t: State, i: nat, c: nat)
    requires Run(INITIAL, es, t) && i < |t.threads| && t.threads[i].Open?
    requires c < |t.threads| && Enabled(t, Step(c))
    requires t.threads[c].Loading? || t.threads[c].Looking?
    requires FlowKey(t.threads[c].packet) == Some(t.threads[i].key)
    ensures var packet := t.threads[c].packet;
      Next(t, Step(c)).threads[c]
      == if t.threads[c].Loading? then Looking(packet, t.threads[i].key) else Claimed(packet, i)
  {
    RunKeepsInv(INITIAL, es, t);
    RemovedIsCounted(t.threads, i);
    OpenIsListed(t.flows, t.threads, i);
    assert LookRight(t.threads[c]);
    PacketOfOpen(t, i, c);
    ClaimerStep(t, c);
  }

  lemma OpenIsListed(flows: map<Key, Flow>, threads: seq<Thread>, i: nat)
    requires TableRight(flows, threads) && i < |threads| && threads[i].Open?
    ensures threads[i].key in flows && flows[threads[i].key].owner == i
  {
  }

  lemma ClaimerStep(s: State, c: nat)
    requires Enabled(s, Step(c)) && (s.threads[c].Loading? || s.threads[c].Looking?)
    ensures Next(s, Step(c)) == if s.threads[c].Loading? then LoadStep(s, c) else ClaimStep(s, c)
  {
  }

  lemma PacketOfOpen(s: State, i: nat, c: nat)
    requires i < |s.threads| && s.threads[i].Open?
    requires s.threads[i].key in s.flows && s.flows[s.threads[i].key].owner == i
    requires 0 < s.active && c < |s.threads| && LookRight(s.threads[c])
    requires FlowKeyOf(s.threads[c]) == Some(s.threads[i].key)
    ensures s.threads[c].Loading? ==> LoadStep(s, c).threads[c] == Looking(s.threads[c].packet, s.threads[i].key)
    ensures s.threads[c].Looking? ==> ClaimStep(s, c).threads[c] == Claimed(s.threads[c].packet, i)
  {
  }

  function FlowKeyOf(th: Thread): Option<Key> {
    if th.Loading? || th.Looking? then FlowKey(th.packet) else None
  }

  /** `open` is refused exactly when every local port towards that remote is in use. */
  lemma RefusedIffExhausted(s: State, t: nat)
    requires Enabled(s, Step(t)) && s.threads[t].Opening?
    ensures Next(s, Step(t)).threads[t].Refused?
       <==> forall p: U16 :: Local(p) ==> Key(s.threads[t].remote, s.threads[t].port, p) in s.flows
  {
    var th := s.threads[t];
    PickFailsIffExhausted(s.flows.Keys, th.remote, th.port, th.first);
    assert forall p: U16 :: Key(th.remote, th.port, p) in s.flows.Keys <==> Key(th.remote, th.port, p) in s.flows;
  }

  /** Every claim that ends in a flow is in exactly that flow's queue, once, and the flow has the packet's key. */
  lemma ClaimedOnceInItsFlow(es: seq<Event>, t: State, c: nat)
    requires Run(INITIAL, es, t) && c < |t.threads| && t.threads[c].Claimed?
    ensures var i := t.threads[c].flow;
      && i < |t.threads| && HasKey(t.threads[i]) && FlowKey(t.threads[c].packet) == Some(t.threads[i].key)
      && Occurrences(Received(t.flows, t.threads[i]), c) == 1
    ensures forall j :: 0 <= j < |t.threads| && j != t.threads[c].flow ==> c !in Received(t.flows, t.threads[j])
  {
    RunKeepsInv(INITIAL, es, t);
    ClaimedOnce(t.flows, t.threads, t.claims, c);
  }

  lemma ClaimedOnce(flows: map<Key, Flow>, threads: seq<Thread>, claims: seq<Claim>, c: nat)
    requires QueuesRight(flows, threads, claims) && ClaimsRight(threads, claims)
    requires c < |threads| && threads[c].Claimed?
    ensures var i := threads[c].flow;
      && i < |threads| && HasKey(threads[i]) && FlowKey(threads[c].packet) == Some(threads[i].key)
      && Occurrences(Received(flows, threads[i]), c) == 1
    ensures forall j :: 0 <= j < |threads| && j != threads[c].flow ==> c !in Received(flows, threads[j])
  {
    var i := threads[c].flow;
    assert Claim(c, i) in claims;
    var a :| 0 <= a < |claims| && claims[a] == Claim(c, i);
    assert ClaimRight(threads, claims[a]);
    OnceInFlow(claims, a);
    assert Received(flows, threads[i]) == ToFlow(claims, i);
    forall j | 0 <= j < |threads| && j != i
      ensures c !in Received(flows, threads[j])
    {
      assert Received(flows, threads[j]) == ToFlow(claims, j);
      NotElsewhere(claims, a, j);
    }
  }

  /** What a flow received is what claims sent to it, in the order of the claims. */
  lemma QueuedInClaimOrder(es: seq<Event>, t: State, i: nat)
    requires Run(INITIAL, es, t) && i < |t.threads|
    ensures Received(t.flows, t.threads[i]) == ToFlow(t.claims, i)
    ensures forall c :: c in ToFlow(t.claims, i) ==>
      c < |t.threads| && t.threads[c].Claimed? && t.threads[c].flow == i
  {
    RunKeepsInv(INITIAL, es, t);
    forall c | c in ToFlow(t.claims, i)
      ensures c < |t.threads| && t.threads[c].Claimed? && t.threads[c].flow == i
    {
      var a := FromClaim(t.claims, i, c);
      assert ClaimRight(t.threads, t.claims[a]);
    }
  }

  /** A claim hands its own packet on, unchanged. */
  lemma PacketUnchanged(s: State, e: Event, i: nat)
    requires Enabled(s, e) && i < |s.threads|
    requires s.threads[i].Loading? || s.threads[i].Looking? || s.threads[i].Claimed? || s.threads[i].GivenBack?
    ensures var th := Next(s, e).threads[i];
      && (th.Loading? || th.Looking? || th.Claimed? || th.GivenBack?)
      && th.packet == s.threads[i].packet
  {
  }

  function Occurrences(q: seq<nat>, c: nat): nat {
    if q == [] then 0 else (if q[0] == c then 1 else 0) + Occurrences(q[1..], c)
  }

  predicate Distinct(claims: seq<Claim>) {
    forall a, b :: 0 <= a < b < |claims| ==> claims[a].claimer != claims[b].claimer
  }

  lemma {:induction false} OnceInFlow(claims: seq<Claim>, a: nat)
    requires Distinct(claims) && a < |claims|
    ensures Occurrences(ToFlow(claims, claims[a].flow), claims[a].claimer) == 1
  {
    var rest, c, i := claims[1..], claims[a].claimer, claims[a].flow;
    if a == 0 {
      NotIn(rest, c, i);
      assert ([c] + ToFlow(rest, i))[1..] == ToFlow(rest, i);
    } else {
      OnceInFlow(rest, a - 1);
      if claims[0].flow == i {
        assert ([claims[0].claimer] + ToFlow(rest, i))[1..] == ToFlow(rest, i);
      } else {
        assert [] + ToFlow(rest, i) == ToFlow(rest, i);
      }
    }
  }

  lemma {:induction false} NotIn(claims: seq<Claim>, c: nat, i: nat)
    requires forall a :: 0 <= a < |claims| ==> claims[a].claimer != c
    ensures Occurrences(ToFlow(claims, i), c) == 0
  {
    if claims != [] {
      var rest := claims[1..];
      NotIn(rest, c, i);
      if claims[0].flow == i {
        assert ([claims[0].claimer] + ToFlow(rest, i))[1..] == ToFlow(rest, i);
      } else {
        assert [] + ToFlow(rest, i) == ToFlow(rest, i);
      }
    }
  }

  lemma {:induction false} FromClaim(claims: seq<Claim>, i: nat, c: nat) returns (a: nat)
    requires c in ToFlow(claims, i)
    ensures a < |claims| && claims[a] == Claim(c, i)
  {
    if claims[0].flow == i && claims[0].claimer == c {
      a := 0;
    } else {
      a := FromClaim(claims[1..], i, c);
      a := a + 1;
    }
  }

  lemma NotElsewhere(claims: seq<Claim>, a: nat, j: nat)
    requires Distinct(claims) && a < |claims| && claims[a].flow != j
    ensures claims[a].claimer !in ToFlow(claims, j)
  {
    if claims[a].claimer in ToFlow(claims, j) {
      var b := FromClaim(claims, j, claims[a].claimer);
      assert false;
    }
  }
}

/** `open`, `claim` and the guard's drop as they are written, with other threads acting between any two accesses. */
module DivertTable {
  import opened Bytes
  import opened FlowKeys
  import opened DivertProtocol

  class Divert {
    var active: nat
    var flows: map<Key, Flow>
    var locked: bool
    var threads: seq<Thread>
    ghost var claims: seq<Claim>
    ghost var trace: seq<Event>

    constructor ()
      ensures Valid() && View() == INITIAL
    {
      active, flows, locked, threads, claims, trace := 0, map[], false, [], [], [];
    }

    ghost function View(): State
      reads this
    {
      State(active, flows, locked, threads, claims)
    }

    /** The fields of the code itself, under a history of nothing. */
    function Table(): State
      reads this
    {
      State(active, flows, locked, threads, [])
    }

    /** All that happened is a run of the protocol. */
    ghost predicate Valid()
      reads this
    {
      Run(INITIAL, trace, View())
    }

    ghost predicate At(t: nat, th: Thread)
      reads this
    {
      t < |threads| && threads[t] == th
    }

    /** Table and threads are where `e` takes them from `v`; the history follows. */
    ghost method Record(v: State, e: Event)
      requires Run(INITIAL, trace, v) && Enabled(v, e) && SameTable(Table(), Next(v, e))
      modifies this`claims, this`trace
      ensures Valid() && View() == Next(v, e)
    {
      RunThen(INITIAL, trace, v, e);
      claims, trace := Next(v, e).claims, trace + [e];
    }

    method Other(e: Event)
      requires Valid()
      modifies this
      ensures Valid() && |threads| >= old(|threads|)
      ensures forall i :: 0 <= i < old(|threads|) && !(e.Step? && e.t == i) ==> threads[i] == old(threads[i])
    {
      if Enabled(Table(), e) {
        Perform(e);
      }
    }

    method Perform(e: Event)
      requires Valid() && Enabled(Table(), e)
      modifies this
      ensures Valid() && SameTable(Table(), Next(old(Table()), e))
    {
      ghost var v := View();
      HistoryIsHistory(Table(), v, e);
      var n := Next(Table(), e);
      active, flows, locked, threads := n.active, n.flows, n.locked, n.threads;
      Record(v, e);
    }

    /** What other threads do meanwhile; what cannot happen is skipped. */
    method Others(me: nat, script: seq<Event>)
      requires Valid() && me < |threads|
      modifies this
      ensures Valid() && |threads| >= old(|threads|) && threads[me] == old(threads[me])
    {
      for i := 0 to |script|
        invariant Valid() && |threads| >= old(|threads|) && threads[me] == old(threads[me])
      {
        if !script[i].Step? || script[i].t != me {
          Other(script[i]);
        }
      }
    }

    /** Waits for the table's lock; whoever has it, in the middle of an `open`, goes on and releases it. */
    method Lock(me: nat, script: seq<Event>)
      requires Valid() && me < |threads| && !threads[me].Inserted?
      modifies this
      ensures Valid() && |threads| >= old(|threads|) && threads[me] == old(threads[me]) && !locked
    {
      Others(me, script);
      if locked {
        var i := Holder();
        Perform(Step(i));
      }
    }

    /** The thread that has the lock. */
    method Holder() returns (i: nat)
      requires Valid() && locked
      ensures i < |threads| && threads[i].Inserted? && threads[i].key in flows
    {
      SomeoneInserts(trace, View());
      i := 0;
      while !threads[i].Inserted?
        invariant i < |threads| && exists j :: i <= j < |threads| && threads[j].Inserted?
        decreases |threads| - i
      {
        i := i + 1;
      }
      ListedHasEntry(trace, View(), i);
    }

    /** The port search of `open`. */
    method FindKey(remote: seq<Byte>, port: U16, first: nat) returns (key: Option<Key>)
      ensures key == PickFrom(flows.Keys, remote, port, first, 0)
      ensures key.None? <==> forall p: U16 :: Local(p) ==> Key(remote, port, p) in flows.Keys
      ensures key.Some? ==> key.value !in flows && key.value.remote == remote && Local(key.value.localPort)
    {
      PickFailsIffExhausted(flows.Keys, remote, port, first);
      PickWorks(flows.Keys, remote, port, first, 0);
      for i := 0 to SPAN
        invariant PickFrom(flows.Keys, remote, port, first, 0) == PickFrom(flows.Keys, remote, port, first, i)
      {
        var tried := KeyTried(remote, port, first, i);
        if tried !in flows {
          return Some(tried);
        }
      }
      key := None;
    }

    /** A new call of one of the two. */
    method Begin(th: Thread, ghost e: Event) returns (t: nat)
      requires Valid()
      requires match e
               case BeginOpen(remote, port, first) => th == Opening(remote, port, first)
               case BeginClaim(packet) => th == Loading(packet)
               case Step(_) => false
      modifies this
      ensures Valid() && t == old(|threads|) && |threads| == t + 1 && At(t, th)
    {
      t := |threads|;
      ghost var v := View();
      threads := threads + [th];
      Record(v, e);
    }

    static predicate IsOpenTo(th: Thread, remote: seq<Byte>) {
      th.Open? && th.key.remote == remote && Local(th.key.localPort)
    }

    /** `open`: None, or the thread that has the flow until its guard drops. */
    method Open(remote: seq<Byte>, port: U16, first: nat, before: seq<Event>, within: seq<Event>)
        returns (flow: Option<nat>)
      requires Valid()
      modifies this
      ensures Valid() && |threads| > old(|threads|)
      ensures flow.Some? ==> flow.value == old(|threads|) && IsOpenTo(threads[flow.value], remote)
      ensures flow.None? ==> At(old(|threads|), Refused)
    {
      var t := Begin(Opening(remote, port, first), BeginOpen(remote, port, first));
      Lock(t, before);
      var key := FindKey(remote, port, first);
      if key.None? {
        ghost var v := View();
        threads := threads[t := Refused];
        Record(v, Step(t));
        return None;
      }
      Insert(t, remote, port, first, key.value);
      Others(t, within);
      Count(t, key.value);
      flow := Some(t);
    }

    method Insert(t: nat, ghost remote: seq<Byte>, ghost port: U16, ghost first: nat, key: Key)
      requires Valid() && At(t, Opening(remote, port, first)) && !locked
      requires PickFrom(flows.Keys, remote, port, first, 0) == Some(key)
      modifies this
      ensures Valid() && |threads| == old(|threads|) && At(t, Inserted(key))
    {
      ghost var v := View();
      flows := flows[key := Flow(t, [])];
      locked := true;
      threads := threads[t := Inserted(key)];
      Record(v, Step(t));
    }

    /** The flow counted, and the lock released. */
    method Count(t: nat, key: Key)
      requires Valid() && At(t, Inserted(key))
      modifies this
      ensures Valid() && |threads| == old(|threads|) && At(t, Thread.Open(key))
    {
      ghost var v := View();
      ListedHasEntry(trace, v, t);
      active := active + 1;
      locked := false;
      threads := threads[t := Thread.Open(key)];
      Record(v, Step(t));
    }

    /** `claim`: the packet again, or None once it is with its flow. */
    method Claim(packet: seq<Byte>, before: seq<Event>, within: seq<Event>) returns (back: Option<seq<Byte>>)
      requires Valid()
      modifies this
      ensures Valid() && |threads| > old(|threads|)
      ensures back.Some? ==> back.value == packet && At(old(|threads|), GivenBack(packet))
      ensures back.None? ==> threads[old(|threads|)].Claimed? && threads[old(|threads|)].packet == packet
    {
      var t := Begin(Loading(packet), BeginClaim(packet));
      Others(t, before);
      ghost var v := View();
      if active == 0 {
        threads := threads[t := GivenBack(packet)];
        Record(v, Step(t));
        return Some(packet);
      }
      var key := FlowKey(packet);
      if key.None? {
        threads := threads[t := GivenBack(packet)];
        Record(v, Step(t));
        return Some(packet);
      }
      threads := threads[t := Looking(packet, key.value)];
      Record(v, Step(t));
      Lock(t, within);
      back := LookUp(t, packet, key.value);
    }

    /** The part of `claim` under the lock. */
    method LookUp(t: nat, packet: seq<Byte>, key: Key) returns (back: Option<seq<Byte>>)
      requires Valid() && At(t, Looking(packet, key)) && !locked
      modifies this
      ensures Valid() && |threads| == old(|threads|)
      ensures if back.None? then threads[t].Claimed? && threads[t].packet == packet
              else back == Some(packet) && At(t, GivenBack(packet))
    {
      ghost var v := View();
      if key !in flows {
        threads := threads[t := GivenBack(packet)];
        Record(v, Step(t));
        return Some(packet);
      }
      var flow := flows[key];
      flows := flows[key := flow.(queue := flow.queue + [t])];
      threads := threads[t := Claimed(packet, flow.owner)];
      Record(v, Step(t));
      back := None;
    }

    /** The guard's drop. */
    method Drop(t: nat, before: seq<Event>, within: seq<Event>)
      requires Valid() && t < |threads| && threads[t].Open?
      modifies this
      ensures Valid() && |threads| >= old(|threads|) && threads[t].Closed? && threads[t].key == old(threads[t].key)
    {
      Lock(t, before);
      var key := threads[t].key;
      var queue := Remove(t, key);
      Others(t, within);
      Uncount(t, key, queue);
    }

    method Remove(t: nat, key: Key) returns (queue: seq<nat>)
      requires Valid() && At(t, Thread.Open(key)) && !locked
      modifies this
      ensures Valid() && |threads| == old(|threads|) && At(t, Removed(key, queue))
    {
      ghost var v := View();
      ListedHasEntry(trace, v, t);
      queue := flows[key].queue;
      flows := flows - {key};
      threads := threads[t := Removed(key, queue)];
      Record(v, Step(t));
    }

    method Uncount(t: nat, key: Key, queue: seq<nat>)
      requires Valid() && At(t, Removed(key, queue))
      modifies this
      ensures Valid() && |threads| == old(|threads|) && At(t, Closed(key, queue))
      ensures active == old(active) - 1
    {
      ghost var v := View();
      CounterIsOpenAndDropping(trace, v);
      active := active - 1;
      threads := threads[t := Closed(key, queue)];
      Record(v, Step(t));
    }
  }

  lemma SomeoneInserts(es: seq<Event>, t: State)
    requires Run(INITIAL, es, t) && t.locked
    ensures exists i :: 0 <= i < |t.threads| && t.threads[i].Inserted?
  {
    RunKeepsInv(INITIAL, es, t);
  }

  lemma ListedHasEntry(es: seq<Event>, t: State, i: nat)
    requires Run(INITIAL, es, t) && i < |t.threads| && InTable(t.threads[i])
    ensures t.threads[i].key in t.flows && t.flows[t.threads[i].key].owner == i
  {
    RunKeepsInv(INITIAL, es, t);
  }
}
