// Federated transport messages and the header rewrites that route them: the setters of a transport message, the copying
// of federation data between a request and its reply, and the two transformers of a federation broker.
module FederationMessages {
  import opened Options
  import opened Subjects

  type Hop = (string, string, string)

  datatype Header = Header(requestId: Token, replyTo: Subject, targets: seq<Subject>)

  /** The secured content, which no broker touches. A reply carries the id of the request it answers. */
  datatype Payload = RequestBody(requestId: Token, text: string) | ReplyBody(requestId: Token, text: string)

  datatype Transport = Transport(payload: Payload, replyTo: Subject, federation: Option<Header>, hops: seq<Hop>)

  function HeaderOf(f: Option<Header>): Header {
    if f.Some? then f.value else Header("", [], [])
  }

  /** A message that can carry federation headers: a transport message or a request. */
  class Federable {
    const payload: Payload
    var replyTo: Subject
    var federation: Option<Header>
    var hops: seq<Hop>

    constructor (t: Transport)
      ensures Value() == t
    {
      payload, replyTo, federation, hops := t.payload, t.replyTo, t.federation, t.hops;
    }

    function Value(): Transport
      reads this
    {
      Transport(payload, replyTo, federation, hops)
    }

    method SetFederationRequestID(id: Token)
      modifies this`federation
      ensures federation == Some(HeaderOf(old(federation)).(requestId := id))
    {
      if federation.None? {
        federation := Some(Header("", [], []));
      }
      federation := Some(federation.value.(requestId := id));
    }

    method SetFederationReplyTo(reply: Subject)
      modifies this`federation
      ensures federation == Some(HeaderOf(old(federation)).(replyTo := reply))
    {
      if federation.None? {
        federation := Some(Header("", [], []));
      }
      federation := Some(federation.value.(replyTo := reply));
    }

    method SetFederationTargets(targets: seq<Subject>)
      modifies this`federation
      ensures federation == Some(HeaderOf(old(federation)).(targets := targets))
    {
      if federation.None? {
        federation := Some(Header("", [], []));
      }
      federation := Some(federation.value.(targets := targets));
    }

    method SetUnfederated()
      modifies this`federation
      ensures federation == None
    {
      federation := None;
    }

    method SetReplyTo(reply: Subject)
      modifies this`replyTo
      ensures replyTo == reply
    {
      replyTo := reply;
    }

    method RecordNetworkHop(hop: Hop)
      modifies this`hops
      ensures hops == old(hops) + [hop]
    {
      hops := hops + [hop];
    }
  }

  /** Federation headers move as a whole, hops are appended, and an unfederated source strips the destination. */
  method CopyFederationData(from: Federable, to: Federable)
    requires from != to
    modifies to
    ensures to.Value() == CopiedFederation(from.Value(), old(to.Value()))
  {
    if from.federation.None? {
      to.SetUnfederated();
      return;
    }
    to.SetFederationReplyTo(from.federation.value.replyTo);
    to.SetFederationRequestID(from.federation.value.requestId);
    to.SetFederationTargets(from.federation.value.targets);
    var i := 0;
    while i < |from.hops|
      invariant 0 <= i <= |from.hops|
      invariant to.federation == from.federation && to.replyTo == old(to.replyTo)
      invariant to.hops == old(to.hops) + from.hops[..i]
    {
      to.RecordNetworkHop(from.hops[i]);
      i := i + 1;
    }
    assert from.hops[..i] == from.hops;
  }

  function CopiedFederation(from: Transport, to: Transport): Transport {
    to.(federation := from.federation, hops := to.hops + if from.federation.Some? then from.hops else [])
  }

  // ---------------------------------------------------------------------------------------------------------
  // The broker's chain messages and transformers

  datatype Chain = Chain(targets: seq<Subject>, requestId: Token, message: Transport, seen: seq<string>)

  datatype Step = Forward(cm: Chain) | Drop

  datatype Side = Requests | Replies

  function SideName(side: Side): Token {
    if side.Requests? then "federation" else "collective"
  }

  /** The subject a chain of the broker ingests from. */
  function IngestSubject(broker: Token, side: Side): Subject {
    FederationTarget(broker, SideName(side))
  }

  /** Ingest: only federated messages enter a chain. */
  function Ingest(t: Transport, server: string, worker: string): Option<Chain> {
    if t.federation.None? then None else Some(Chain([], t.federation.value.requestId, t, [server, worker]))
  }

  /**
   * The request transformer: targets move out of the header, the reply-to moves in, the broker becomes the reply-to.
   */
  function TransformRequest(broker: Token, worker: string, cm: Chain): Step {
    var f := cm.message.federation;
    if f.None? || f.value.targets == [] || cm.message.replyTo == [] then Drop
    else Forward(Chain(
      f.value.targets, f.value.requestId,
      cm.message.(replyTo := IngestSubject(broker, Replies),
                  federation := Some(Header(f.value.requestId, cm.message.replyTo, []))),
      cm.seen + [worker]))
  }

  /** The reply transformer: the stored reply-to becomes the only target and the federation header goes. */
  function TransformReply(worker: string, cm: Chain): Step {
    var f := cm.message.federation;
    if f.None? || f.value.replyTo == [] then Drop
    else Forward(Chain([f.value.replyTo], f.value.requestId, cm.message.(federation := None), cm.seen + [worker]))
  }

  function Transform(side: Side, broker: Token, worker: string, cm: Chain): Step {
    if side.Requests? then TransformRequest(broker, worker, cm) else TransformReply(worker, cm)
  }

  /** A chain message whose transport message is the object `m`. */
  ghost predicate Holds(step: Step, sent: bool, targets: seq<Subject>, requestId: Token, seen: seq<string>,
      m: Transport)
  {
    match step
    case Drop => !sent
    case Forward(cm) => sent && cm == Chain(targets, requestId, m, seen)
  }

  method RequestWorker(broker: Token, worker: string, m: Federable, seen: seq<string>)
    returns (sent: bool, targets: seq<Subject>, requestId: Token, seen': seq<string>)
    modifies m
    ensures Holds(TransformRequest(broker, worker, Chain([], "", old(m.Value()), seen)),
            sent, targets, requestId, seen', m.Value())
    ensures sent ==> m.replyTo == ["choria", "federation", broker, "collective"]
    ensures !sent ==> m.Value() == old(m.Value())
  {
    sent, targets, requestId, seen' := false, [], "", seen;
    if m.federation.None? {
      return;
    }
    requestId := m.federation.value.requestId;
    targets := m.federation.value.targets;
    if |targets| == 0 {
      return;
    }
    var replyTo := m.replyTo;
    if replyTo == [] {
      return;
    }
    seen' := seen + [worker];
    m.SetFederationTargets([]);
    m.SetFederationReplyTo(replyTo);
    m.SetReplyTo(FederationTarget(broker, "collective"));
    sent := true;
  }

  method ReplyWorker(worker: string, m: Federable, seen: seq<string>)
    returns (sent: bool, targets: seq<Subject>, requestId: Token, seen': seq<string>)
    modifies m
    ensures Holds(TransformReply(worker, Chain([], "", old(m.Value()), seen)),
            sent, targets, requestId, seen', m.Value())
    ensures !sent ==> m.Value() == old(m.Value())
  {
    sent, targets, requestId, seen' := false, [], "", seen;
    if m.federation.None? {
      return;
    }
    requestId := m.federation.value.requestId;
    var replyTo := m.federation.value.replyTo;
    if replyTo == [] {
      return;
    }
    seen' := seen + [worker];
    targets := [replyTo];
    m.SetUnfederated();
    sent := true;
  }

  // ---------------------------------------------------------------------------------------------------------
  // Egest

  function CommaJoin(s: seq<string>): string {
    if s == [] then "" else if |s| == 1 then s[0] else s[0] + ", " + CommaJoin(s[1..])
  }

  /** The message as it leaves: one hop made of the trail, when the trail is long enough. */
  function Leaving(cm: Chain, identity: string, worker: string, server: string): Transport {
    var seen := cm.seen + [worker, server];
    if |seen| < 3 then cm.message
    else cm.message.(hops := cm.message.hops +
      [(seen[0], identity + " (" + CommaJoin(seen[1..|seen| - 1]) + ")", seen[|seen| - 1])])
  }

  /** The hop is made of the first and the last entry of the trail; a message that ingest has not seen records none. */
  lemma LeavingRecordsHops(cm: Chain, identity: string, worker: string, server: string)
    ensures var out := Leaving(cm, identity, worker, server);
      && out == cm.message.(hops := out.hops)
      && if cm.seen == [] then out.hops == cm.message.hops
         else
           && |out.hops| == |cm.message.hops| + 1 && out.hops[..|cm.message.hops|] == cm.message.hops
           && out.hops[|cm.message.hops|].0 == cm.seen[0] && out.hops[|cm.message.hops|].2 == server
           && out.hops[|cm.message.hops|].1 == identity + " (" + CommaJoin(cm.seen[1..] + [worker]) + ")"
  {
    var seen := cm.seen + [worker, server];
    if cm.seen != [] {
      assert seen[1..|seen| - 1] == cm.seen[1..] + [worker];
    }
  }

  /** A connection on which attempt number n to publish succeeds when `accepts(n)` says so. */
  class Wire {
    const accepts: nat -> bool
    var attempts: nat
    var sent: seq<(Subject, Transport)>

    constructor (accepts: nat -> bool)
      ensures this.accepts == accepts && attempts == 0 && sent == []
    {
      this.accepts := accepts;
      attempts, sent := 0, [];
    }

    method PublishRaw(target: Subject, data: Transport) returns (err: bool)
      modifies this
      ensures attempts == old(attempts) + 1
      ensures err <==> !accepts(old(attempts))
      ensures sent == old(sent) + if err then [] else [(target, data)]
    {
      err := !accepts(attempts);
      attempts := attempts + 1;
      if !err {
        sent := sent + [(target, data)];
      }
    }
  }

  /** What publishing `data` to every target puts on the wire when attempts start at `from`. */
  function Delivered(accepts: nat -> bool, from: nat, targets: seq<Subject>, data: Transport)
    : seq<(Subject, Transport)>
  {
    if targets == [] then []
    else
      var n := |targets| - 1;
      Delivered(accepts, from, targets[..n], data) + if accepts(from + n) then [(targets[n], data)] else []
  }

  /** Publishing goes on after a failure: every target gets one attempt, and published plus failed is their number. */
  method EgestWorker(
    wire: Wire, m: Federable, targets: seq<Subject>, seen: seq<string>, identity: string, worker: string,
    server: string, encodes: bool)
    returns (published: nat, errors: nat)
    modifies wire, m
    ensures targets == [] ==>
      published == 0 && errors == 1 && wire.sent == old(wire.sent) && m.Value() == old(m.Value())
    ensures targets != [] ==> m.Value() == Leaving(Chain(targets, "", old(m.Value()), seen), identity, worker, server)
    ensures targets != [] && !encodes ==> published == 0 && errors == 1 && wire.sent == old(wire.sent)
    ensures targets != [] && encodes ==>
      && wire.attempts == old(wire.attempts) + |targets|
      && wire.sent == old(wire.sent) + Delivered(wire.accepts, old(wire.attempts), targets, m.Value())
      && published + errors == |targets| && |wire.sent| == |old(wire.sent)| + published
  {
    published, errors := 0, 0;
    if |targets| == 0 {
      return 0, 1;
    }
    var trail := seen + [worker];
    trail := trail + [server];
    assert trail == seen + [worker, server];
    if |trail| >= 3 {
      m.RecordNetworkHop((trail[0], identity + " (" + CommaJoin(trail[1..|trail| - 1]) + ")", trail[|trail| - 1]));
    }
    if !encodes {
      return 0, 1;
    }
    ghost var leaving := m.Value();
    var i := 0;
    while i < |targets|
      invariant 0 <= i <= |targets|
      invariant m.Value() == leaving && wire.attempts == old(wire.attempts) + i
      invariant wire.sent == old(wire.sent) + Delivered(wire.accepts, old(wire.attempts), targets[..i], leaving)
      invariant published + errors == i && |wire.sent| == |old(wire.sent)| + published
    {
      assert targets[..i + 1][..i] == targets[..i];
      var err := wire.PublishRaw(targets[i], m.Value());
      if err {
        errors := errors + 1;
      } else {
        published := published + 1;
      }
      i := i + 1;
    }
    assert targets[..i] == targets;
  }

  /** Without failures every target receives the message exactly once, in order. */
  lemma {:induction false} AllDelivered(accepts: nat -> bool, from: nat, targets: seq<Subject>, data: Transport)
    requires forall n :: accepts(n)
    ensures Delivered(accepts, from, targets, data) ==
            seq(|targets|, i requires 0 <= i < |targets| => (targets[i], data))
  {
    if targets != [] {
      AllDelivered(accepts, from, targets[..|targets| - 1], data);
    }
  }
}
