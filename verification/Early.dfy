/** A public name asked of two sides at once: the upstreams, and a lookup that was released before it decided. */
module EarlyRelease {
  import opened Bytes

  type Reply = seq<Byte>

  /** What TTLs are clamped to: a few seconds while a lookup is still deciding, else the time until a retry. */
  datatype Cap = Overrun | UntilRetry(seconds: nat)

  /** How a lookup ends. */
  datatype LookupResult = Found(reply: Reply) | Passthrough | Unavailable(retryIn: nat)

  /** What a released lookup turned out to be. */
  datatype Decided = Answer(reply: Reply) | Legacy | Capped(cap: Cap)

  datatype Outcome = Answered(reply: Reply) | PassedOn | CappedTo(cap: Cap) | Released

  /** A reply and where it came from; `Short` ones have their TTLs clamped. */
  datatype Sent = OverFips(reply: Reply) | AsItCame(reply: Reply) | Short(reply: Reply, cap: Cap)

  /** How the fetching thread ends: with what the upstreams gave, or without a word. */
  datatype Ending = Fetched(reply: Option<Reply>) | Died

  /** The thread's channel is empty for `quiet` looks. */
  datatype Prefetch = Prefetch(quiet: nat, end: Ending)

  /** Everything the two sides and the clock will do. */
  datatype Schedule = Schedule(
    ready: Option<nat>,            // asks of the decision that find it still running, if it ever ends
    decision: Decided,
    prefetch: Option<Prefetch>,
    inlineReply: Option<Reply>,    // what the upstreams give when asked here
    patience: nat)                 // looks at the clock before the budget is over

  /** The closure of an early release: the running lookup, until its decision is handed over. */
  class Decision {
    const sched: Schedule
    var task: bool
    var asks: nat
    ghost var given: Option<Decided>

    constructor (s: Schedule)
      ensures sched == s && task && asks == 0 && given == None
    {
      sched, task, asks, given := s, true, 0, None;
    }

    /** The decision comes out once, at the first ask that finds it made. */
    method Ask() returns (d: Option<Decided>)
      modifies this
      ensures asks == old(asks) + 1
      ensures d == if old(task) && sched.ready.Some? && sched.ready.value <= old(asks)
                   then Some(sched.decision) else None
      ensures task == (old(task) && d.None?)
      ensures given == if d.Some? then d else old(given)
    {
      var due := sched.ready.Some? && sched.ready.value <= asks;
      asks := asks + 1;
      if !task || !due {
        return None;
      }
      task := false;
      given := Some(sched.decision);
      d := Some(sched.decision);
    }
  }

  datatype Received = Empty | Disconnected | Message(reply: Option<Reply>)

  /** The upstreams, and the fetching thread's channel if one was opened. */
  class Upstreams {
    const sched: Schedule
    var looks: nat
    var consumed: bool      // the thread's one message was taken
    var inlineRounds: nat

    constructor (s: Schedule)
      ensures sched == s && looks == 0 && !consumed && inlineRounds == 0
    {
      sched, looks, consumed, inlineRounds := s, 0, false, 0;
    }

    method TryRecv() returns (r: Received)
      requires sched.prefetch.Some?
      modifies this`looks, this`consumed
      ensures looks == old(looks) + 1
      ensures var p := sched.prefetch.value;
        r == if old(looks) < p.quiet then Empty
             else if old(consumed) || p.end.Died? then Disconnected
             else Message(p.end.reply)
      ensures consumed == (old(consumed) || r.Message?)
    {
      var p := sched.prefetch.value;
      looks := looks + 1;
      if looks <= p.quiet {
        return Empty;
      }
      if consumed || p.end.Died? {
        return Disconnected;
      }
      consumed := true;
      r := Message(p.end.reply);
    }

    /** forward_upstreams on this thread. */
    method AskInline() returns (reply: Option<Reply>)
      modifies this`inlineRounds
      ensures inlineRounds == old(inlineRounds) + 1 && reply == sched.inlineReply
    {
      inlineRounds := inlineRounds + 1;
      reply := sched.inlineReply;
    }

    /** The upstreams' answer, waited for. */
    method Forward() returns (reply: Option<Reply>)
      requires !consumed
      modifies this`consumed, this`inlineRounds
      ensures reply == UpstreamReply(sched)
      ensures inlineRounds == old(inlineRounds) + if FetchAlive(sched) then 0 else 1
      ensures consumed == FetchAlive(sched)
    {
      if sched.prefetch.Some? && sched.prefetch.value.end.Fetched? {
        consumed := true;
        reply := sched.prefetch.value.end.reply;
      } else {
        reply := AskInline();
      }
    }
  }

  /** A fetching thread that will report. */
  predicate FetchAlive(s: Schedule) {
    s.prefetch.Some? && s.prefetch.value.end.Fetched?
  }

  /** What the one upstream round gives. */
  function UpstreamReply(s: Schedule): Option<Reply> {
    if FetchAlive(s) then s.prefetch.value.end.reply else s.inlineReply
  }

  function AsLegacy(reply: Option<Reply>): Option<Sent> {
    if reply.None? then None else Some(AsItCame(reply.value))
  }

  function AsShort(reply: Option<Reply>, cap: Cap): Option<Sent> {
    if reply.None? then None else Some(Short(reply.value, cap))
  }

  /** Asks that come back empty before the upstreams' reply is looked at and the decision asked once more. */
  function AsksBefore(s: Schedule): nat {
    (if s.prefetch.Some? then s.prefetch.value.quiet else 0) + 1
  }

  /** The decision is there by the ask that follows `n` others. */
  predicate DecidedBy(s: Schedule, n: nat) {
    s.ready.Some? && s.ready.value <= n
  }

  /** The last ask there is: the one after the upstreams replied or, if they gave nothing, the one at the end of the
      budget. */
  function LastAsk(s: Schedule): nat {
    AsksBefore(s) + if UpstreamReply(s).None? then s.patience else 0
  }

  /** Whether the released lookup's decision is seen before the query is answered without it. */
  predicate DecisionSeen(s: Schedule) {
    DecidedBy(s, AsksBefore(s)) || (UpstreamReply(s).None? && DecidedBy(s, AsksBefore(s) + s.patience))
  }

  function Act(d: Decided, upstream: Option<Reply>): Option<Sent> {
    match d
    case Answer(reply) => Some(OverFips(reply))
    case Legacy => AsLegacy(upstream)
    case Capped(cap) => AsShort(upstream, cap)
  }

  /** The race without its loop: act on a decision seen, else send what the upstreams gave, for a few seconds. */
  function Race(s: Schedule): (sent: Option<Sent>)
    ensures sent.None? <==> UpstreamReply(s).None? && !(DecisionSeen(s) && s.decision.Answer?)
    ensures forall reply :: sent == Some(OverFips(reply)) <==> DecisionSeen(s) && s.decision == Answer(reply)
    ensures forall reply :: sent == Some(AsItCame(reply)) <==>
      DecisionSeen(s) && s.decision == Legacy && UpstreamReply(s) == Some(reply)
  {
    if DecisionSeen(s) then Act(s.decision, UpstreamReply(s)) else AsShort(UpstreamReply(s), Overrun)
  }

  /** The branch of `serve` for a released lookup. */
  method ServeReleased(decision: Decision, upstreams: Upstreams, s: Schedule) returns (sent: Option<Sent>)
    requires decision.sched == s && decision.task && decision.asks == 0 && decision.given.None?
    requires upstreams.sched == s && !upstreams.consumed && upstreams.looks == 0 && upstreams.inlineRounds == 0
    modifies decision, upstreams
    ensures sent == Race(s)
    ensures decision.given == if DecisionSeen(s) then Some(s.decision) else None
    ensures decision.asks == 1 + if decision.given.Some? then s.ready.value else LastAsk(s)
    ensures upstreams.inlineRounds <= 1 && (upstreams.inlineRounds == 1 ==> !FetchAlive(s))
    ensures s.decision.Answer? && DecidedBy(s, AsksBefore(s) - 1) ==>
      upstreams.inlineRounds == 0
  {
    var clock := 0;
    var outcome := decision.Ask();
    var legacy: Option<Option<Reply>> := None;
    while outcome.None?
      invariant outcome == decision.given && decision.task == outcome.None?
      invariant legacy.None? ==> clock == 0 && !upstreams.consumed && upstreams.inlineRounds == 0
      invariant legacy.None? && outcome.None? ==> decision.asks == upstreams.looks + 1 <= AsksBefore(s)
      invariant legacy.Some? ==> legacy.value == UpstreamReply(s) && clock <= s.patience
      invariant legacy.Some? ==> upstreams.inlineRounds == if FetchAlive(s) then 0 else 1
      invariant legacy.Some? && outcome.None? ==> decision.asks == AsksBefore(s) + 1 + clock
      invariant outcome.None? ==> !DecidedBy(s, decision.asks - 1)
      invariant outcome.Some? ==> 0 < decision.asks && outcome.value == s.decision && s.ready == Some(decision.asks - 1)
      invariant outcome.Some? ==> decision.asks - 1 <= AsksBefore(s) + if legacy.Some? then clock else -1
      invariant outcome.Some? && legacy.Some? ==> AsksBefore(s) <= decision.asks - 1
      invariant 0 < clock ==> legacy == Some(None)
      decreases outcome.None?, legacy.None?, AsksBefore(s) - upstreams.looks, s.patience - clock
    {
      if legacy.None? {
        if s.prefetch.Some? {
          var r := upstreams.TryRecv();
          match r {
            case Empty =>
              outcome := decision.Ask();
              continue;
            case Disconnected =>
              var reply := upstreams.AskInline();
              legacy := Some(reply);
            case Message(reply) =>
              legacy := Some(reply);
          }
        } else {
          var reply := upstreams.AskInline();
          legacy := Some(reply);
        }
        outcome := decision.Ask();
      } else if legacy.value.Some? {
        break;
      } else if clock >= s.patience {
        break;
      } else {
        clock := clock + 1;
        outcome := decision.Ask();
      }
    }
    match outcome {
      case Some(Answer(reply)) =>
        sent := Some(OverFips(reply));
      case Some(Legacy) =>
        var reply := Settle(upstreams, legacy);
        sent := AsLegacy(reply);
      case Some(Capped(cap)) =>
        var reply := Settle(upstreams, legacy);
        sent := AsShort(reply, cap);
      case None =>
        sent := AsShort(legacy.value, Overrun);
    }
  }

  /** The legacy answer in hand, or fetched now. */
  method Settle(upstreams: Upstreams, legacy: Option<Option<Reply>>) returns (reply: Option<Reply>)
    requires legacy.None? ==> !upstreams.consumed
    modifies upstreams
    ensures legacy.Some? ==> reply == legacy.value && upstreams.inlineRounds == old(upstreams.inlineRounds)
    ensures legacy.None? ==> reply == UpstreamReply(upstreams.sched)
    ensures legacy.None? ==>
      upstreams.inlineRounds == old(upstreams.inlineRounds) + if FetchAlive(upstreams.sched) then 0 else 1
  {
    if legacy.Some? {
      reply := legacy.value;
    } else {
      reply := upstreams.Forward();
    }
  }

  // ---------------------------------------------------------------------------------
  // The lookup's own outcomes
  // ---------------------------------------------------------------------------------

  function DecidedOf(result: LookupResult): Decided {
    match result
    case Found(reply) => Answer(reply)
    case Passthrough => Legacy
    case Unavailable(retryIn) => Capped(UntilRetry(retryIn))
  }

  function Settled(result: LookupResult): Outcome {
    match DecidedOf(result)
    case Answer(reply) => Answered(reply)
    case Legacy => PassedOn
    case Capped(cap) => CappedTo(cap)
  }

  /** The non-.fips branch of `serve`; without a resolver the outcome is None. */
  method Serve(outcome: Option<Outcome>, s: Schedule) returns (sent: Option<Sent>, ghost rounds: nat)
    ensures outcome == Some(Released) ==> sent == Race(s)
    ensures forall result :: outcome == Some(Settled(result)) ==> sent == Act(DecidedOf(result), UpstreamReply(s))
    ensures outcome.None? ==> sent == AsLegacy(UpstreamReply(s))
    ensures rounds <= 1 && (rounds == 1 ==> !FetchAlive(s))
  {
    var upstreams := new Upstreams(s);
    match outcome {
      case Some(Answered(reply)) =>
        sent := Some(OverFips(reply));
      case Some(CappedTo(cap)) =>
        var reply := upstreams.Forward();
        sent := AsShort(reply, cap);
      case Some(Released) =>
        var decision := new Decision(s);
        sent := ServeReleased(decision, upstreams, s);
      case _ =>
        var reply := upstreams.Forward();
        sent := AsLegacy(reply);
    }
    rounds := upstreams.inlineRounds;
  }

  /** `s` with the decision in from the `n`-th ask on. */
  function ReadyAt(s: Schedule, n: nat): Schedule { s.(ready := Some(n)) }

  /** A decision that was in at the first ask is acted on as if the lookup had settled; one that comes sooner is never
      seen less. */
  lemma SoonerIsSeen(s: Schedule, sooner: nat, later: nat)
    requires sooner <= later && DecisionSeen(ReadyAt(s, later))
    ensures Race(ReadyAt(s, sooner)) == Race(ReadyAt(s, later)) == Race(ReadyAt(s, 0))
    ensures Race(ReadyAt(s, 0)) == Act(s.decision, UpstreamReply(s))
  {
    assert UpstreamReply(ReadyAt(s, sooner)) == UpstreamReply(ReadyAt(s, later)) == UpstreamReply(ReadyAt(s, 0));
  }

  /** A decision that is not seen might as well never come, however much later it does. */
  lemma LaterIsNever(s: Schedule, sooner: nat, later: nat)
    requires sooner <= later && !DecisionSeen(ReadyAt(s, sooner))
    ensures Race(ReadyAt(s, sooner)) == Race(ReadyAt(s, later)) == Race(s.(ready := None))
  {
    var never := s.(ready := None);
    assert UpstreamReply(ReadyAt(s, sooner)) == UpstreamReply(ReadyAt(s, later)) == UpstreamReply(never);
  }
}
