// A federated request on its way to a node and the reply on its way back, across any number of brokers and requests.
module FederationNetwork {
  import opened Options
  import opened Subjects
  import opened FederationMessages
  import Runs

  // ---------------------------------------------------------------------------------------------------------
  // The node side (server/processor.go, message/message.go, choria/protocol.go)

  /** The request object a node decodes, after CopyFederationData gave it the headers of its transport. */
  function DecodedRequest(t: Transport): Transport {
    CopiedFederation(t, Transport(t.payload, [], None, []))
  }

  /** The transport of a reply: a fresh message that takes the federation data of the request. */
  function ReplyTransport(request: Transport, text: string): Transport {
    CopiedFederation(request, Transport(ReplyBody(request.payload.requestId, text), [], None, []))
  }

  /** NewMessageFromRequest: the reply message inherits the reply-to through the request message it is made from. */
  function ReplyMessage(request: Transport, collective: Token, agent: Token, replyTo: Subject): Message {
    Message(MessageType.Reply, collective, agent, request.payload.requestId, replyTo, [], [])
  }

  /** What an unfederated node publishes for a request it received, if anything. */
  function NodeReply(t: Transport, collective: Token, agent: Token, text: string, hop: Hop)
    : Option<(Subject, Transport)>
  {
    if t.payload.ReplyBody? then None
    else
      var request := DecodedRequest(t);
      var dispatched := ReplyMessage(request, collective, agent, t.replyTo);
      var msg := ReplyMessage(request, collective, agent, dispatched.replyTo);
      var out := ReplyTransport(request, text);
      match TargetForMessage(msg, [])
      case NoTarget => None
      case Target(subject) => Some((subject, out.(hops := out.hops + [hop])))
  }

  // ---------------------------------------------------------------------------------------------------------
  // One transit through a broker

  /** Who handles a message inside a broker, and the servers and identity it records. */
  datatype Path = Path(inServer: string, ingest: string, transformer: string, egest: string,
      outServer: string, identity: string)

  /** Ingest, transform and egest of one chain: the targets and the message that leaves. */
  function Transit(broker: Token, side: Side, p: Path, t: Transport): Option<(seq<Subject>, Transport)> {
    match Ingest(t, p.inServer, p.ingest)
    case None => None
    case Some(cm) =>
      match Transform(side, broker, p.transformer, cm)
      case Drop => None
      case Forward(out) => Some((out.targets, Leaving(out, p.identity, p.egest, p.outServer)))
  }

  /** The hop of a transit: the servers at its ends, and who handled the message in between. */
  function HopOf(p: Path): Hop {
    (p.inServer, p.identity + " (" + p.ingest + ", " + p.transformer + ", " + p.egest + ")", p.outServer)
  }

  /** Each transit records exactly one hop, from the server it came from to the server it went to. */
  lemma TransitRecordsOneHop(broker: Token, side: Side, p: Path, t: Transport)
    requires Transit(broker, side, p, t).Some?
    ensures Transit(broker, side, p, t).value.1.hops == t.hops + [HopOf(p)]
    ensures Transit(broker, side, p, t).value.1.payload == t.payload && Transit(broker, side, p, t).value.0 != []
  {
    var cm := Ingest(t, p.inServer, p.ingest).value;
    var seen := [p.inServer, p.ingest, p.transformer] + [p.egest, p.outServer];
    assert seen[1..|seen| - 1] == [p.ingest, p.transformer, p.egest];
    assert cm.seen + [p.transformer] == [p.inServer, p.ingest, p.transformer];
    CommaJoinThree(p.ingest, p.transformer, p.egest);
    assert p.identity + " (" + (p.ingest + ", " + p.transformer + ", " + p.egest) + ")" == HopOf(p).1;
  }

  lemma CommaJoinThree(a: string, b: string, c: string)
    ensures CommaJoin([a, b, c]) == a + ", " + b + ", " + c
  {
    assert [a, b, c][1..] == [b, c] && [b, c][1..] == [c];
    assert CommaJoin([c]) == c && CommaJoin([b, c]) == b + ", " + c;
    assert a + ", " + (b + ", " + c) == a + ", " + b + ", " + c;
  }

  /**
   * The round trip of one request: sent with reply-to `replyTo`, every reply a node makes goes to the collective side
   * of the broker that carried the request and leaves that broker unfederated for exactly [replyTo], still naming the
   * request. The two transits and the node each add one hop to the trail, and nothing else is left of the way.
   */
  lemma RoundTrip(
    broker: Token, there: Path, back: Path, t: Transport, collective: Token, agent: Token, text: string, hop: Hop)
    requires t.payload.RequestBody? && t.federation.Some? && t.federation.value.targets != [] && t.replyTo != []
    ensures
      var out := Transit(broker, Requests, there, t);
      && out.Some? && out.value.0 == t.federation.value.targets
      && out.value.1.replyTo == ["choria", "federation", broker, "collective"]
      && out.value.1.federation == Some(Header(t.federation.value.requestId, t.replyTo, []))
      && var reply := NodeReply(out.value.1, collective, agent, text, hop);
      && reply.Some? && reply.value.0 == ["choria", "federation", broker, "collective"]
      && reply.value.0 == IngestSubject(broker, Replies)
      && var home := Transit(broker, Replies, back, reply.value.1);
      && home.Some? && home.value.0 == [t.replyTo]
      && home.value.1 == Transport(
        ReplyBody(t.payload.requestId, text), [], None, t.hops + [HopOf(there), hop, HopOf(back)])
  {
    TransitRecordsOneHop(broker, Requests, there, t);
    var out := Transit(broker, Requests, there, t).value.1;
    var reply := NodeReply(out, collective, agent, text, hop).value.1;
    TransitRecordsOneHop(broker, Replies, back, reply);
  }

  /** Without federation a reply goes straight to the reply-to of its request, if there is one, on a new trail. */
  lemma DirectReply(t: Transport, collective: Token, agent: Token, text: string, hop: Hop)
    requires t.payload.RequestBody? && t.federation.None?
    ensures NodeReply(t, collective, agent, text, hop) ==
      if t.replyTo == [] then None
      else Some((t.replyTo, Transport(ReplyBody(t.payload.requestId, text), [], None, [hop])))
  {
    var none: seq<Hop> := [];
    assert none + none == none && none + [hop] == [hop];
  }

  // ---------------------------------------------------------------------------------------------------------
  // Every run of the whole network

  /** Everything ever published: on the federation side, in the collectives, and which requests clients issued. */
  datatype Net = Net(federation: set<(Subject, Transport)>, collective: set<(Subject, Transport)>,
      issued: set<(Token, Subject)>)

  /** A request as a connector publishes it: the id in the header is the id in the secured payload. */
  predicate IsClientRequest(t: Transport) {
    t.payload.RequestBody? && t.replyTo != []
    && (t.federation.Some? ==> t.federation.value.requestId == t.payload.requestId && t.federation.value.replyTo == [])
  }

  datatype Event =
    | IssueFederated(federationName: Token, request: Transport)
    | IssueDirect(target: Subject, request: Transport)
    | CarryRequest(broker: Token, path: Path, message: Transport)
    | Answer(subject: Subject, message: Transport, inCollective: Token, agent: Token, text: string, hop: Hop)
    | CarryReply(broker: Token, path: Path, message: Transport)

  function ToTargets(targets: seq<Subject>, t: Transport): set<(Subject, Transport)> {
    set s | s in targets :: (s, t)
  }

  ghost predicate Next(n: Net, e: Event, n': Net) {
    match e
    case IssueFederated(f, t) =>
      && IsClientRequest(t) && t.federation.Some?
      && n' == n.(federation := n.federation + {(FederationTarget(f, "federation"), t)},
                  issued := n.issued + {(t.payload.requestId, t.replyTo)})
    case IssueDirect(target, t) =>
      IsClientRequest(t) && t.federation.None? && n' == n.(collective := n.collective + {(target, t)})
    case CarryRequest(broker, p, t) =>
      && (IngestSubject(broker, Requests), t) in n.federation
      && var out := Transit(broker, Requests, p, t);
         n' == n.(collective := n.collective + if out.Some? then ToTargets(out.value.0, out.value.1) else {})
    case Answer(subject, t, c, agent, text, hop) =>
      && (subject, t) in n.collective
      && var out := NodeReply(t, c, agent, text, hop);
         n' == n.(collective := n.collective + if out.Some? then {out.value} else {})
    case CarryReply(broker, p, t) =>
      && (IngestSubject(broker, Replies), t) in n.collective
      && var out := Transit(broker, Replies, p, t);
         n' == n.(federation := n.federation + if out.Some? then ToTargets(out.value.0, out.value.1) else {})
  }

  const Quiet := Net({}, {}, {})

  ghost predicate IsRun(states: seq<Net>, events: seq<Event>) {
    Runs.IsRun(n => n == Quiet, Next, states, events)
  }

  /** Messages in a collective that carry a federation header remember an issued request. */
  ghost predicate Remembers(n: Net, t: Transport) {
    t.federation.Some? && t.federation.value.replyTo != [] ==>
      && t.federation.value.requestId == t.payload.requestId
      && (t.payload.requestId, t.federation.value.replyTo) in n.issued
  }

  ghost predicate OnFederationSide(n: Net, m: (Subject, Transport)) {
    && (m.1.payload.ReplyBody? ==> m.1.federation.None? && (m.1.payload.requestId, m.0) in n.issued)
    && (m.1.payload.RequestBody? && m.1.federation.Some? && m.1.federation.value.replyTo == [] ==>
        IsClientRequest(m.1) && (m.1.payload.requestId, m.1.replyTo) in n.issued)
    && (m.1.federation.Some? ==> m.1.payload.RequestBody? && m.1.federation.value.replyTo == [])
  }

  ghost predicate Invariant(n: Net) {
    && (forall m :: m in n.federation ==> OnFederationSide(n, m))
    && (forall m :: m in n.collective ==> Remembers(n, m.1))
  }

  lemma NextKeepsInvariant(n: Net, e: Event, n': Net)
    requires Invariant(n) && Next(n, e, n')
    ensures Invariant(n')
  {
    forall m | m in n'.collective ensures Remembers(n', m.1) {
      if m in n.collective {
        assert Remembers(n, m.1);
      }
    }
    forall m | m in n'.federation ensures OnFederationSide(n', m) {
      if m in n.federation {
        assert OnFederationSide(n, m);
      }
    }
  }

  /**
   * In every run with any number of clients, nodes and brokers: whatever reply reaches the federation side is
   * unfederated and addressed to the reply-to of a federated request that was issued with the id the reply carries.
   */
  lemma RepliesReachTheirRequesters(states: seq<Net>, events: seq<Event>, i: nat, m: (Subject, Transport))
    requires IsRun(states, events) && i < |states| && m in states[i].federation && m.1.payload.ReplyBody?
    ensures m.1.federation.None? && (m.1.payload.requestId, m.0) in states[i].issued
  {
    forall n, e, n' | Invariant(n) && Next(n, e, n') ensures Invariant(n') {
      NextKeepsInvariant(n, e, n');
    }
    Runs.Always(n => n == Quiet, Next, Invariant, states, events, i);
    assert OnFederationSide(states[i], m);
  }

  // ---------------------------------------------------------------------------------------------------------
  // Brokers wired in any way forward a message at most twice

  function Rank(t: Transport): nat {
    if t.federation.None? then 0 else if t.federation.value.targets == [] then 1 else 2
  }

  /** What can happen to a message: a broker carries it on one of its sides, or a node replies to it. */
  datatype Leg = Broker(name: Token, side: Side, path: Path)
    | Node(collective: Token, agent: Token, text: string, hop: Hop)

  function Travel(leg: Leg, t: Transport): Option<Transport> {
    match leg
    case Broker(name, side, p) =>
      (match Transit(name, side, p, t) case None => None case Some(out) => Some(out.1))
    case Node(c, agent, text, hop) =>
      (match NodeReply(t, c, agent, text, hop) case None => None case Some(out) => Some(out.1))
  }

  function Journey(legs: seq<Leg>, t: Transport): Option<Transport> {
    if legs == [] then Some(t)
    else match Travel(legs[0], t)
      case None => None
      case Some(next) => Journey(legs[1..], next)
  }

  function CountBrokers(legs: seq<Leg>): nat {
    if legs == [] then 0 else (if legs[0].Broker? then 1 else 0) + CountBrokers(legs[1..])
  }

  function CountRequestSides(legs: seq<Leg>): nat {
    if legs == [] then 0
    else (if legs[0].Broker? && legs[0].side.Requests? then 1 else 0) + CountRequestSides(legs[1..])
  }

  /** Every transit lowers the rank; a request transit needs the highest rank. Replies of nodes keep it. */
  lemma TravelLowersRank(leg: Leg, t: Transport)
    requires Travel(leg, t).Some?
    ensures leg.Broker? ==> Rank(Travel(leg, t).value) < Rank(t)
    ensures leg.Broker? && leg.side.Requests? ==> Rank(t) == 2 && Rank(Travel(leg, t).value) == 1
    ensures leg.Node? ==> Rank(Travel(leg, t).value) == Rank(t)
  {
  }

  /**
   * No journey has more than two transits or more than one through a request transformer, however brokers are wired.
   */
  lemma {:induction false} AtMostTwoTransits(legs: seq<Leg>, t: Transport)
    requires Journey(legs, t).Some?
    ensures CountBrokers(legs) <= Rank(t) <= 2
    ensures CountRequestSides(legs) <= 1 && (Rank(t) < 2 ==> CountRequestSides(legs) == 0)
  {
    if legs != [] {
      TravelLowersRank(legs[0], t);
      AtMostTwoTransits(legs[1..], Travel(legs[0], t).value);
    }
  }
}
