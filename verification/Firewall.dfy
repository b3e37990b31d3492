/** The stateful inbound firewall: what a flow table is, and what it owes to the traffic it has seen. */
module FlowTable {
  import opened Bytes

  const PROTO_TCP: Byte := 6
  const PROTO_UDP: Byte := 17
  const PROTO_ICMPV6: Byte := 58

  /** Nanoseconds on the monotonic clock. */
  type Time = nat

  const TCP_IDLE: nat := 600_000_000_000
  const UDP_IDLE: nat := 180_000_000_000

  const MAX_FLOWS: nat := 4096

  datatype FlowKey = FlowKey(proto: Byte, localPort: U16, remoteAddr: seq<Byte>, remotePort: U16)

  datatype Parsed = Parsed(proto: Byte, srcAddr: seq<Byte>, srcPort: U16, dstPort: U16)

  type Table = map<FlowKey, Time>

  /** Ports and source of a plain IPv6 packet; ICMPv6 has ports 0. */
  function Parse(packet: seq<Byte>): (p: Option<Parsed>)
    ensures p.Some? ==> 40 <= |packet| && packet[0] / 16 == 6 && p.value.proto == packet[6]
  {
    if |packet| < 40 || packet[0] / 16 != 6 then None
    else if packet[6] == PROTO_ICMPV6 then Some(Parsed(packet[6], packet[8..24], 0, 0))
    else if packet[6] == PROTO_TCP || packet[6] == PROTO_UDP then
      if |packet| < 44 then None
      else Some(Parsed(packet[6], packet[8..24], U16At(packet, 40), U16At(packet, 42)))
    else None
  }

  /** The flow of a packet we send: ours is the source. */
  function OutboundKey(packet: seq<Byte>): Option<FlowKey> {
    var p := Parse(packet);
    if p.None? || p.value.proto == PROTO_ICMPV6 then None
    else Some(FlowKey(p.value.proto, p.value.srcPort, packet[24..40], p.value.dstPort))
  }

  /** The flow of a packet we receive: ours is the destination. */
  function InboundKey(packet: seq<Byte>): Option<FlowKey> {
    var p := Parse(packet);
    if p.None? || p.value.proto == PROTO_ICMPV6 then None
    else Some(FlowKey(p.value.proto, p.value.dstPort, p.value.srcAddr, p.value.srcPort))
  }

  /** A received packet is in the flow of a sent one exactly when it has the reversed tuple. */
  lemma SameFlowIffReversed(sent: seq<Byte>, received: seq<Byte>)
    requires OutboundKey(sent).Some? && InboundKey(received).Some?
    ensures InboundKey(received) == OutboundKey(sent) <==>
      && received[6] == sent[6]
      && received[8..24] == sent[24..40]
      && received[40..42] == sent[42..44]
      && received[42..44] == sent[40..42]
  {
    assert received[40..44][..2] == received[40..42] && sent[40..44][..2] == sent[40..42];
    PortsAgree(received, 40, sent, 42);
    PortsAgree(received, 42, sent, 40);
  }

  lemma PortsAgree(a: seq<Byte>, i: nat, b: seq<Byte>, j: nat)
    requires i + 2 <= |a| && j + 2 <= |b|
    ensures U16At(a, i) == U16At(b, j) <==> a[i..i + 2] == b[j..j + 2]
  {
    Be16Inverts(a, i);
    Be16Inverts(b, j);
    if a[i..i + 2] == b[j..j + 2] {
      assert a[i] == a[i..i + 2][0] && a[i + 1] == a[i..i + 2][1];
      assert b[j] == b[j..j + 2][0] && b[j + 1] == b[j..j + 2][1];
    }
  }

  function IdleLimit(proto: Byte): nat {
    if proto == PROTO_TCP then TCP_IDLE else UDP_IDLE
  }

  /** Instant::duration_since: zero for an instant that is not in the past. */
  function Since(now: Time, seen: Time): nat {
    if seen <= now then now - seen else 0
  }

  predicate Fresh(k: FlowKey, now: Time, seen: Time) {
    Since(now, seen) < IdleLimit(k.proto)
  }

  function Purged(t: Table, now: Time): Table {
    map k | k in t && Fresh(k, now, t[k]) :: t[k]
  }

  ghost predicate IsOldest(t: Table, k: FlowKey) {
    k in t && forall j :: j in t ==> t[k] <= t[j]
  }

  /** The table after an outbound packet; which of several oldest entries goes is left open. */
  ghost predicate Noted(t: Table, k: FlowKey, now: Time, u: Table) {
    if |t| >= MAX_FLOWS && k !in t then
      var p := Purged(t, now);
      if |p| >= MAX_FLOWS then exists v :: IsOldest(p, v) && u == (p - {v})[k := now]
      else u == p[k := now]
    else u == t[k := now]
  }

  predicate Admits(t: Table, k: FlowKey, now: Time) {
    k in t && Fresh(k, now, t[k])
  }

  /** The table after an inbound packet: refreshed, or rid of an entry that expired. */
  function Asked(t: Table, k: FlowKey, now: Time): Table {
    if k !in t then t else if Fresh(k, now, t[k]) then t[k := now] else t - {k}
  }

  /** A TCP or UDP packet at the filter; inbound ones to an allowed port never get as far as the table. */
  datatype Event = Outbound(key: FlowKey, at: Time) | Inbound(key: FlowKey, at: Time)

  /** `ts` are the tables a filter goes through on `es`. */
  ghost predicate Trace(es: seq<Event>, ts: seq<Table>) {
    && |ts| == |es| + 1
    && ts[0] == map[]
    && (forall i, j :: 0 <= i <= j < |es| ==> es[i].at <= es[j].at)
    && (forall i :: 0 <= i < |es| ==> StepsTo(ts[i], es[i], ts[i + 1]))
  }

  ghost predicate StepsTo(t: Table, e: Event, u: Table) {
    if e.Outbound? then Noted(t, e.key, e.at, u) else u == Asked(t, e.key, e.at)
  }

  // ---------------------------------------------------------------------------------
  // The bound
  // ---------------------------------------------------------------------------------

  lemma PurgedIsSmaller(t: Table, now: Time)
    ensures |Purged(t, now)| <= |t|
    ensures |Purged(t, now)| == |t| ==> Purged(t, now) == t
  {
    var p := Purged(t, now);
    assert p.Keys <= t.Keys;
    CardinalitySubset(p.Keys, t.Keys);
    assert |p.Keys| == |p| && |t.Keys| == |t|;
  }

  lemma CardinalitySubset<T>(a: set<T>, b: set<T>)
    requires a <= b
    ensures |a| <= |b|
    ensures |a| == |b| ==> a == b
  {
    assert |b - a| == |b| - |a|;
  }

  lemma RemovedSize(t: Table, v: FlowKey)
    requires v in t
    ensures |t - {v}| == |t| - 1
  {
    assert (t - {v}).Keys == t.Keys - {v};
    assert |(t - {v}).Keys| == |t - {v}| && |t.Keys| == |t|;
  }

  lemma AddedSize(t: Table, k: FlowKey, now: Time)
    ensures |t[k := now]| == if k in t then |t| else |t| + 1
  {
    assert t[k := now].Keys == t.Keys + {k};
    assert |t[k := now].Keys| == |t[k := now]| && |t.Keys| == |t|;
  }

  lemma NotedBound(t: Table, k: FlowKey, now: Time, u: Table)
    requires |t| <= MAX_FLOWS && Noted(t, k, now, u)
    ensures |u| <= MAX_FLOWS
  {
    PurgedIsSmaller(t, now);
    var p := Purged(t, now);
    if |t| >= MAX_FLOWS && k !in t && |p| >= MAX_FLOWS {
      var v :| IsOldest(p, v) && u == (p - {v})[k := now];
      RemovedSize(p, v);
      AddedSize(p - {v}, k, now);
    } else if |t| >= MAX_FLOWS && k !in t {
      AddedSize(p, k, now);
    } else {
      AddedSize(t, k, now);
    }
  }

  lemma AskedBound(t: Table, k: FlowKey, now: Time)
    ensures |Asked(t, k, now)| <= |t|
  {
    if k in t {
      AddedSize(t, k, now);
      RemovedSize(t, k);
    }
  }

  /** No run ever holds more than MAX_FLOWS entries. */
  lemma {:induction false} TableBounded(es: seq<Event>, ts: seq<Table>, n: nat)
    requires Trace(es, ts) && n <= |es|
    ensures |ts[n]| <= MAX_FLOWS
  {
    if n > 0 {
      TableBounded(es, ts, n - 1);
      assert StepsTo(ts[n - 1], es[n - 1], ts[n]);
      if es[n - 1].Outbound? {
        NotedBound(ts[n - 1], es[n - 1].key, es[n - 1].at, ts[n]);
      } else {
        AskedBound(ts[n - 1], es[n - 1].key, es[n - 1].at);
      }
    }
  }

  // ---------------------------------------------------------------------------------
  // The unbounded filter, and the chain of traffic that justifies its verdicts
  // ---------------------------------------------------------------------------------

  /** The same filter with no bound on its table. */
  function Unbounded(es: seq<Event>): Table {
    if es == [] then map[]
    else
      var t, e := Unbounded(es[..|es| - 1]), es[|es| - 1];
      if e.Outbound? then t[e.key := e.at] else Asked(t, e.key, e.at)
  }

  ghost predicate InOrder(es: seq<Event>) {
    forall i, j :: 0 <= i <= j < |es| ==> es[i].at <= es[j].at
  }

  /** Events of one flow, the first one outbound, with every gap below the idle limit. */
  ghost predicate Chain(es: seq<Event>, k: FlowKey, links: seq<nat>) {
    && links != []
    && (forall i :: 0 <= i < |links| ==> links[i] < |es| && es[links[i]].key == k)
    && es[links[0]].Outbound?
    && (forall i :: 0 < i < |links| ==>
          links[i - 1] < links[i] && Fresh(k, es[links[i]].at, es[links[i - 1]].at))
  }

  ghost function ChainEnd(es: seq<Event>, k: FlowKey, links: seq<nat>): Time
    requires Chain(es, k, links)
  {
    es[links[|links| - 1]].at
  }

  lemma ChainPrefix(es: seq<Event>, k: FlowKey, links: seq<nat>, more: seq<Event>)
    requires Chain(es, k, links)
    ensures Chain(es + more, k, links) && ChainEnd(es + more, k, links) == ChainEnd(es, k, links)
  {
  }

  lemma ChainExtend(es: seq<Event>, k: FlowKey, links: seq<nat>, e: Event)
    requires Chain(es, k, links) && e.key == k && Fresh(k, e.at, ChainEnd(es, k, links))
    ensures Chain(es + [e], k, links + [|es|]) && ChainEnd(es + [e], k, links + [|es|]) == e.at
  {
    var all, ls := es + [e], links + [|es|];
    forall i | 0 < i < |ls|
      ensures ls[i - 1] < ls[i] && Fresh(k, all[ls[i]].at, all[ls[i - 1]].at)
    {
      if i < |links| {
        assert all[ls[i]] == es[links[i]] && all[ls[i - 1]] == es[links[i - 1]];
      }
    }
  }

  /** Every entry of the unbounded table ends a chain. */
  lemma {:induction false} EntryHasChain(es: seq<Event>, k: FlowKey) returns (links: seq<nat>)
    requires k in Unbounded(es)
    ensures Chain(es, k, links) && ChainEnd(es, k, links) == Unbounded(es)[k]
    decreases |es|
  {
    var n := |es| - 1;
    var before, e := es[..n], es[n];
    assert es == before + [e];
    if e.key == k && e.Outbound? {
      links := [n];
    } else {
      links := EntryHasChain(before, k);
      if e.key == k {
        ChainExtend(before, k, links, e);
        links := links + [n];
      } else {
        ChainPrefix(before, k, links, [e]);
      }
    }
  }

  /** A chain that has not run cold keeps its flow in the unbounded table. */
  lemma {:induction false} ChainKeepsEntry(es: seq<Event>, k: FlowKey, links: seq<nat>, now: Time)
    requires InOrder(es) && Chain(es, k, links)
    requires forall i :: 0 <= i < |es| ==> es[i].at <= now
    requires Fresh(k, now, ChainEnd(es, k, links))
    ensures k in Unbounded(es) && ChainEnd(es, k, links) <= Unbounded(es)[k]
    decreases |es|
  {
    var n := |es| - 1;
    var e, last := es[n], links[|links| - 1];
    if last < n {
      ChainBefore(es, k, links, n);
      ChainKeepsEntry(es[..n], k, links, e.at);
    } else if |links| > 1 {
      var shorter := links[..|links| - 1];
      assert Fresh(k, es[links[|links| - 1]].at, es[links[|links| - 2]].at);
      assert Chain(es, k, shorter) && ChainEnd(es, k, shorter) == es[links[|links| - 2]].at;
      assert links[|links| - 2] < links[|links| - 1];
      ChainBefore(es, k, shorter, n);
      ChainKeepsEntry(es[..n], k, shorter, e.at);
    }
  }

  /** A chain whose last link is before `n` is one of the first `n` events. */
  lemma ChainBefore(es: seq<Event>, k: FlowKey, links: seq<nat>, n: nat)
    requires Chain(es, k, links) && links[|links| - 1] < n <= |es|
    ensures Chain(es[..n], k, links) && ChainEnd(es[..n], k, links) == ChainEnd(es, k, links)
  {
    EarlierLinks(links, es, k);
    forall i | 0 <= i < |links|
      ensures links[i] < n && es[..n][links[i]] == es[links[i]]
    {
    }
    forall i | 0 < i < |links|
      ensures links[i - 1] < links[i] && Fresh(k, es[..n][links[i]].at, es[..n][links[i - 1]].at)
    {
      assert Fresh(k, es[links[i]].at, es[links[i - 1]].at);
    }
  }

  /** Links grow, so all but the last are below it. */
  lemma {:induction false} EarlierLinks(links: seq<nat>, es: seq<Event>, k: FlowKey)
    requires Chain(es, k, links)
    ensures forall i :: 0 <= i < |links| - 1 ==> links[i] < links[|links| - 1]
    decreases |links|
  {
    if |links| > 1 {
      var shorter := links[..|links| - 1];
      assert Chain(es, k, shorter);
      EarlierLinks(shorter, es, k);
      assert links[|links| - 2] < links[|links| - 1];
      forall i | 0 <= i < |links| - 1
        ensures links[i] < links[|links| - 1]
      {
        if i < |links| - 2 {
          assert shorter[i] < shorter[|shorter| - 1];
        }
      }
    }
  }

  /** The unbounded filter admits a packet exactly when a chain of its flow reaches it. */
  lemma UnboundedAdmitsIffChain(es: seq<Event>, k: FlowKey, now: Time)
    requires InOrder(es) && forall i :: 0 <= i < |es| ==> es[i].at <= now
    ensures Admits(Unbounded(es), k, now) <==>
      exists links :: Chain(es, k, links) && Fresh(k, now, ChainEnd(es, k, links))
  {
    if Admits(Unbounded(es), k, now) {
      var links := EntryHasChain(es, k);
    }
    if exists links :: Chain(es, k, links) && Fresh(k, now, ChainEnd(es, k, links)) {
      var links :| Chain(es, k, links) && Fresh(k, now, ChainEnd(es, k, links));
      ChainKeepsEntry(es, k, links, now);
    }
  }

  // ---------------------------------------------------------------------------------
  // Bounded against unbounded
  // ---------------------------------------------------------------------------------

  ghost predicate Within(t: Table, u: Table) {
    forall k :: k in t ==> k in u && u[k] == t[k]
  }

  /** The bounded table only ever forgets. */
  lemma {:induction false} BoundedWithinUnbounded(es: seq<Event>, ts: seq<Table>, n: nat)
    requires Trace(es, ts) && n <= |es|
    ensures Within(ts[n], Unbounded(es[..n]))
  {
    if n > 0 {
      BoundedWithinUnbounded(es, ts, n - 1);
      assert es[..n][..n - 1] == es[..n - 1];
      assert StepsTo(ts[n - 1], es[n - 1], ts[n]);
    }
  }

  /** An outbound packet, or an inbound one the table admitted. */
  predicate Active(t: Table, e: Event) {
    e.Outbound? || Admits(t, e.key, e.at)
  }

  /** Activity of one flow before event `n`, the first of it outbound, with every gap below the idle limit. */
  ghost predicate ActiveChain(es: seq<Event>, ts: seq<Table>, n: nat, k: FlowKey, links: seq<nat>)
    requires |ts| == |es| + 1 && n <= |es|
  {
    && links != []
    && (forall i :: 0 <= i < |links| ==>
          links[i] < n && es[links[i]].key == k && Active(ts[links[i]], es[links[i]]))
    && es[links[0]].Outbound?
    && (forall i :: 0 < i < |links| ==>
          links[i - 1] < links[i] && Fresh(k, es[links[i]].at, es[links[i - 1]].at))
  }

  ghost predicate Reaches(es: seq<Event>, ts: seq<Table>, n: nat, k: FlowKey, links: seq<nat>, now: Time)
    requires |ts| == |es| + 1 && n <= |es|
  {
    ActiveChain(es, ts, n, k, links) && Fresh(k, now, es[links[|links| - 1]].at)
  }

  lemma LinkAdded(es: seq<Event>, ts: seq<Table>, n: nat, k: FlowKey, links: seq<nat>)
    requires |ts| == |es| + 1 && n < |es| && ActiveChain(es, ts, n, k, links)
    requires es[n].key == k && Active(ts[n], es[n]) && Fresh(k, es[n].at, es[links[|links| - 1]].at)
    ensures ActiveChain(es, ts, n + 1, k, links + [n])
  {
    var ls := links + [n];
    forall i | 0 < i < |ls|
      ensures ls[i - 1] < ls[i] && Fresh(k, es[ls[i]].at, es[ls[i - 1]].at)
    {
      assert i < |links| ==> ls[i] == links[i];
      assert ls[i - 1] == links[i - 1];
    }
  }

  /** Every entry of the table ends a chain of activity, as this very table saw it. */
  lemma {:induction false} EntryHasActivity(es: seq<Event>, ts: seq<Table>, n: nat, k: FlowKey)
      returns (links: seq<nat>)
    requires Trace(es, ts) && n <= |es| && k in ts[n]
    ensures ActiveChain(es, ts, n, k, links) && es[links[|links| - 1]].at == ts[n][k]
    decreases n
  {
    assert StepsTo(ts[n - 1], es[n - 1], ts[n]);
    if es[n - 1].key == k && es[n - 1].Outbound? {
      links := [n - 1];
    } else {
      links := EntryHasActivity(es, ts, n - 1, k);
      if es[n - 1].key == k {
        LinkAdded(es, ts, n - 1, k, links);
        links := links + [n - 1];
      }
    }
  }

  /** What the table admits is justified by activity it saw itself; the unbounded filter admits it too. */
  lemma AdmittedIsJustified(es: seq<Event>, ts: seq<Table>, n: nat)
    requires Trace(es, ts) && n < |es| && es[n].Inbound?
    requires Admits(ts[n], es[n].key, es[n].at)
    ensures exists links :: Reaches(es, ts, n, es[n].key, links, es[n].at)
    ensures Admits(Unbounded(es[..n]), es[n].key, es[n].at)
  {
    BoundedWithinUnbounded(es, ts, n);
    var links := EntryHasActivity(es, ts, n, es[n].key);
    assert Reaches(es, ts, n, es[n].key, links, es[n].at);
  }

  /** The flows we opened; what peers send unasked is not among them. */
  ghost function KeysOf(es: seq<Event>): set<FlowKey> {
    set i | 0 <= i < |es| && es[i].Outbound? :: es[i].key
  }

  lemma {:induction false} TableKeys(es: seq<Event>, ts: seq<Table>, n: nat)
    requires Trace(es, ts) && n <= |es|
    ensures ts[n].Keys <= KeysOf(es)
  {
    if n > 0 {
      TableKeys(es, ts, n - 1);
      assert StepsTo(ts[n - 1], es[n - 1], ts[n]);
      assert es[n - 1].Outbound? ==> es[n - 1].key in KeysOf(es);
    }
  }

  /** While we open at most MAX_FLOWS flows in all, bounded and unbounded tables are one and the same. */
  lemma {:induction false} SameWhileFewFlows(es: seq<Event>, ts: seq<Table>, n: nat)
    requires Trace(es, ts) && n <= |es| && |KeysOf(es)| <= MAX_FLOWS
    ensures ts[n] == Unbounded(es[..n])
  {
    if n > 0 {
      SameWhileFewFlows(es, ts, n - 1);
      assert es[..n][..n - 1] == es[..n - 1];
      TableKeys(es, ts, n - 1);
      var t, e := ts[n - 1], es[n - 1];
      assert StepsTo(t, e, ts[n]);
      assert e.Outbound? ==> e.key in KeysOf(es);
      if |t| >= MAX_FLOWS {
        CardinalitySubset(t.Keys, KeysOf(es));
        assert |t.Keys| == |t|;
      }
    }
  }

  // ---------------------------------------------------------------------------------
  // What eviction may cost
  // ---------------------------------------------------------------------------------

  /** When flow `k` was last active among the first `n` events. */
  function LastActive(es: seq<Event>, ts: seq<Table>, n: nat, k: FlowKey): Option<Time>
    requires |ts| == |es| + 1 && n <= |es|
  {
    if n == 0 then None
    else if es[n - 1].key == k && Active(ts[n - 1], es[n - 1]) then Some(es[n - 1].at)
    else LastActive(es, ts, n - 1, k)
  }

  lemma {:induction false} LastActiveInPast(es: seq<Event>, ts: seq<Table>, n: nat, k: FlowKey)
    requires Trace(es, ts) && 0 < n <= |es| && LastActive(es, ts, n, k).Some?
    ensures LastActive(es, ts, n, k).value <= es[n - 1].at
  {
    if !(es[n - 1].key == k && Active(ts[n - 1], es[n - 1])) {
      LastActiveInPast(es, ts, n - 1, k);
    }
  }

  /** An entry's time is its flow's last activity. */
  lemma {:induction false} EntryIsLastActive(es: seq<Event>, ts: seq<Table>, n: nat, k: FlowKey)
    requires Trace(es, ts) && n <= |es| && k in ts[n]
    ensures LastActive(es, ts, n, k) == Some(ts[n][k])
  {
    if n > 0 {
      assert StepsTo(ts[n - 1], es[n - 1], ts[n]);
      if k in ts[n - 1] {
        EntryIsLastActive(es, ts, n - 1, k);
      }
    }
  }

  /** `crowd` are MAX_FLOWS other flows, all active at or after `since`. */
  ghost predicate Crowd(es: seq<Event>, ts: seq<Table>, n: nat, k: FlowKey, since: Time, crowd: set<FlowKey>)
    requires |ts| == |es| + 1 && n <= |es|
  {
    && |crowd| >= MAX_FLOWS && k !in crowd
    && forall j :: j in crowd ==> LastActive(es, ts, n, j).Some? && since <= LastActive(es, ts, n, j).value
  }

  ghost predicate CrowdedOut(es: seq<Event>, ts: seq<Table>, n: nat, k: FlowKey, since: Time)
    requires |ts| == |es| + 1 && n <= |es|
  {
    exists crowd :: Crowd(es, ts, n, k, since, crowd)
  }

  lemma CrowdPersists(es: seq<Event>, ts: seq<Table>, n: nat, k: FlowKey, since: Time)
    requires Trace(es, ts) && 0 < n <= |es| && CrowdedOut(es, ts, n - 1, k, since)
    ensures CrowdedOut(es, ts, n, k, since)
  {
    var crowd :| Crowd(es, ts, n - 1, k, since, crowd);
    forall j | j in crowd
      ensures LastActive(es, ts, n, j).Some? && since <= LastActive(es, ts, n, j).value
    {
      if n > 1 {
        LastActiveInPast(es, ts, n - 1, j);
        assert es[n - 2].at <= es[n - 1].at;
      }
    }
    assert Crowd(es, ts, n, k, since, crowd);
  }

  /** The newcomer and all entries but `v` are as many as the full table. */
  lemma CrowdSize(t: Table, v: FlowKey, k: FlowKey)
    requires v in t && k !in t
    ensures |t.Keys - {v} + {k}| == |t|
  {
    assert |t.Keys| == |t| && |t.Keys - {v}| == |t| - 1;
  }

  /** The entry evicted is older than every other and than the newcomer. */
  lemma EvictionCrowds(es: seq<Event>, ts: seq<Table>, n: nat, v: FlowKey)
    requires Trace(es, ts) && 0 < n <= |es| && es[n - 1].Outbound?
    requires |ts[n - 1]| >= MAX_FLOWS && es[n - 1].key !in ts[n - 1]
    requires IsOldest(ts[n - 1], v)
    ensures CrowdedOut(es, ts, n, v, ts[n - 1][v])
  {
    var t, e := ts[n - 1], es[n - 1];
    var crowd := t.Keys - {v} + {e.key};
    CrowdSize(t, v, e.key);
    forall j | j in crowd
      ensures LastActive(es, ts, n, j).Some? && t[v] <= LastActive(es, ts, n, j).value
    {
      if j == e.key {
        EntryNotAfter(es, ts, n, v);
      } else {
        EntryIsLastActive(es, ts, n - 1, j);
      }
    }
    assert Crowd(es, ts, n, v, t[v], crowd);
  }

  lemma EntryNotAfter(es: seq<Event>, ts: seq<Table>, n: nat, v: FlowKey)
    requires Trace(es, ts) && 0 < n <= |es| && v in ts[n - 1]
    ensures ts[n - 1][v] <= es[n - 1].at
  {
    EntryIsLastActive(es, ts, n - 1, v);
    if n > 1 {
      LastActiveInPast(es, ts, n - 1, v);
      assert es[n - 2].at <= es[n - 1].at;
    }
  }

  /** A flow last active at `since` is in the table, or out of time, or crowded out. */
  ghost predicate Accounted(es: seq<Event>, ts: seq<Table>, n: nat, k: FlowKey, since: Time)
    requires |ts| == |es| + 1 && n <= |es|
  {
    || (k in ts[n] && ts[n][k] == since)
    || (0 < n && !Fresh(k, es[n - 1].at, since))
    || CrowdedOut(es, ts, n, k, since)
  }

  lemma {:induction false} EveryFlowAccounted(es: seq<Event>, ts: seq<Table>, n: nat, k: FlowKey)
    requires Trace(es, ts) && n <= |es| && LastActive(es, ts, n, k).Some?
    ensures Accounted(es, ts, n, k, LastActive(es, ts, n, k).value)
  {
    if es[n - 1].key == k && Active(ts[n - 1], es[n - 1]) {
      ActiveEnters(es, ts, n);
    } else {
      EveryFlowAccounted(es, ts, n - 1, k);
      StaysAccounted(es, ts, n, k, LastActive(es, ts, n, k).value);
    }
  }

  lemma ActiveEnters(es: seq<Event>, ts: seq<Table>, n: nat)
    requires Trace(es, ts) && 0 < n <= |es| && Active(ts[n - 1], es[n - 1])
    ensures es[n - 1].key in ts[n] && ts[n][es[n - 1].key] == es[n - 1].at
  {
    assert StepsTo(ts[n - 1], es[n - 1], ts[n]);
  }

  lemma StaysAccounted(es: seq<Event>, ts: seq<Table>, n: nat, k: FlowKey, since: Time)
    requires Trace(es, ts) && 0 < n <= |es|
    requires Accounted(es, ts, n - 1, k, since)
    requires !(es[n - 1].key == k && Active(ts[n - 1], es[n - 1]))
    ensures Accounted(es, ts, n, k, since)
  {
    if CrowdedOut(es, ts, n - 1, k, since) {
      CrowdPersists(es, ts, n, k, since);
    } else if k in ts[n - 1] && ts[n - 1][k] == since {
      assert StepsTo(ts[n - 1], es[n - 1], ts[n]);
      if k !in ts[n] && Fresh(k, es[n - 1].at, since) {
        GoneMeansEvicted(es, ts, n, k);
      }
    } else {
      assert es[n - 2].at <= es[n - 1].at;
    }
  }

  /** An entry that is still fresh only leaves the table by eviction. */
  lemma GoneMeansEvicted(es: seq<Event>, ts: seq<Table>, n: nat, k: FlowKey)
    requires Trace(es, ts) && 0 < n <= |es|
    requires k in ts[n - 1] && k !in ts[n] && Fresh(k, es[n - 1].at, ts[n - 1][k])
    ensures CrowdedOut(es, ts, n, k, ts[n - 1][k])
  {
    var t, e, u := ts[n - 1], es[n - 1], ts[n];
    assert StepsTo(t, e, u);
    TableBounded(es, ts, n - 1);
    PurgedIsSmaller(t, e.at);
    var p := Purged(t, e.at);
    assert k in p;
    var v :| IsOldest(p, v) && u == (p - {v})[e.key := e.at];
    assert v == k;
    EvictionCrowds(es, ts, n, v);
  }

  /** A reply within its flow's idle limit is admitted, unless MAX_FLOWS other flows were active since. */
  lemma TimelyReplyAdmitted(es: seq<Event>, ts: seq<Table>, n: nat)
    requires Trace(es, ts) && n < |es| && es[n].Inbound?
    requires var last := LastActive(es, ts, n, es[n].key);
      last.Some? && Fresh(es[n].key, es[n].at, last.value)
    ensures Admits(ts[n], es[n].key, es[n].at)
         || CrowdedOut(es, ts, n, es[n].key, LastActive(es, ts, n, es[n].key).value)
  {
    var k := es[n].key;
    EveryFlowAccounted(es, ts, n, k);
    if n > 0 {
      assert es[n - 1].at <= es[n].at;
      LastActiveInPast(es, ts, n, k);
    }
  }
}

/** The filter object the reader and the bridge share. */
module InboundFirewall {
  import opened Bytes
  import opened FlowTable

  class InboundFilter {
    const allowedPorts: set<U16>
    var flows: Table
    ghost var events: seq<Event>
    ghost var tables: seq<Table>

    constructor (ports: seq<U16>)
      ensures Valid() && flows == map[] && events == []
      ensures forall p :: p in allowedPorts <==> p in ports
    {
      allowedPorts := set p | p in ports;
      flows, events, tables := map[], [], [map[]];
    }

    /** The table is what its history makes it. */
    ghost predicate Valid()
      reads this
    {
      Trace(events, tables) && flows == tables[|events|]
    }

    /** `now` is not before any event so far. */
    ghost predicate NotBefore(now: Time)
      reads this
    {
      forall i :: 0 <= i < |events| ==> events[i].at <= now
    }

    ghost method Record(e: Event)
      requires Trace(events, tables) && NotBefore(e.at) && StepsTo(tables[|events|], e, flows)
      modifies this`events, this`tables
      ensures Valid() && events == old(events) + [e] && old(tables) < tables
    {
      var es, ts := events + [e], tables + [flows];
      forall i | 0 <= i < |es|
        ensures StepsTo(ts[i], es[i], ts[i + 1])
      {
        if i < |events| {
          assert StepsTo(tables[i], events[i], tables[i + 1]);
        }
      }
      events, tables := es, ts;
    }

    method NoteOutbound(packet: seq<Byte>, now: Time)
      requires Valid() && NotBefore(now)
      modifies this
      ensures Valid() && old(tables) <= tables
      ensures events == old(events) + match OutboundKey(packet) { case Some(k) => [Outbound(k, now)] case None => [] }
      ensures match OutboundKey(packet) {
                case Some(k) => k in flows && flows[k] == now
                case None => flows == old(flows)
              }
    {
      var parsed := Parse(packet);
      if parsed.None? || parsed.value.proto == PROTO_ICMPV6 {
        return;
      }
      var key := FlowKey(parsed.value.proto, parsed.value.srcPort, packet[24..40], parsed.value.dstPort);
      if |flows| >= MAX_FLOWS && key !in flows {
        flows := map k | k in flows && Fresh(k, now, flows[k]) :: flows[k];
        assert flows == Purged(old(flows), now);
        if |flows| >= MAX_FLOWS {
          var oldest := FindOldest(flows);
          flows := flows - {oldest};
        }
      }
      flows := flows[key := now];
      Record(Outbound(key, now));
    }

    method AllowInbound(packet: seq<Byte>, now: Time) returns (allowed: bool)
      requires Valid() && NotBefore(now)
      modifies this
      ensures Valid() && old(tables) <= tables
      ensures allowed <==>
        && Parse(packet).Some?
        && (Parse(packet).value.proto == PROTO_ICMPV6
            || Parse(packet).value.dstPort in allowedPorts
            || Admits(old(flows), InboundKey(packet).value, now))
      ensures events == old(events) +
        match InboundKey(packet)
        case Some(k) => if k.localPort in allowedPorts then [] else [Inbound(k, now)]
        case None => []
    {
      var parsed := Parse(packet);
      if parsed.None? {
        return false;
      }
      var p := parsed.value;
      if p.proto == PROTO_ICMPV6 {
        return true;
      }
      if p.dstPort in allowedPorts {
        return true;
      }
      var key := FlowKey(p.proto, p.dstPort, p.srcAddr, p.srcPort);
      if key in flows && Fresh(key, now, flows[key]) {
        flows := flows[key := now];
        allowed := true;
      } else if key in flows {
        flows := flows - {key};
        allowed := false;
      } else {
        allowed := false;
      }
      Record(Inbound(key, now));
    }
  }

  /** An entry with the earliest time. */
  method FindOldest(t: Table) returns (oldest: FlowKey)
    requires t != map[]
    ensures IsOldest(t, oldest)
  {
    var rest := t.Keys;
    oldest :| oldest in rest;
    rest := rest - {oldest};
    while rest != {}
      invariant rest <= t.Keys && oldest in t
      invariant forall k :: k in t && k !in rest ==> t[oldest] <= t[k]
      decreases rest
    {
      var k :| k in rest;
      if t[k] < t[oldest] {
        oldest := k;
      }
      rest := rest - {k};
    }
  }
}
