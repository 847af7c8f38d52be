// Where requests and replies really go: the subjects of every kind of message in tokens, and that connectors, brokers
// and nodes meet on them, so that a request can be carried, answered, and its reply brought home from any reachable
// state.
module FederationPaths {
  import opened Options
  import opened Subjects
  import opened Permissions
  import opened ServerPermissionRules
  import opened FederationMessages
  import opened FederationNetwork
  import opened Publishing
  import Runs

  // ---------------------------------------------------------------------------------------------------------
  // What a connector sends

  const Start := Progress([], 0, false)

  /** Without federations, or with a custom target, a message leaves unchanged for the subjects of its kind. */
  lemma SentDirectly(accepts: nat -> bool, federations: seq<Token>, msg: Message, t: Transport)
    requires (forall n :: accepts(n)) && (federations == [] || msg.customTarget != [])
    ensures
      var p := Published(accepts, federations, msg, t, Start);
      && (p.err <==> msg.customTarget == [] && (msg.kind.PlainMessage? || (msg.kind.Reply? && msg.replyTo == [])))
      && if p.err then p.sent == []
         else if msg.customTarget != [] then p.sent == [(msg.customTarget, t)]
         else match msg.kind
           case Request => p.sent == [([msg.collective, "broadcast", "agent", msg.agent], t)]
           case ServiceRequest => p.sent == [([msg.collective, "broadcast", "service", msg.agent], t)]
           case DirectRequest =>
             && |p.sent| == |msg.discoveredHosts|
             && forall i :: 0 <= i < |p.sent| ==>
                  p.sent[i] == ([msg.collective, "node"] + msg.discoveredHosts[i], t)
           case _ => p.sent == [(msg.replyTo, t)]
  {
    if msg.customTarget == [] && msg.kind.DirectRequest? {
      AllReachEach(accepts, NodeTargets(msg.collective, msg.discoveredHosts), t);
    } else {
      match TargetForMessage(msg, [])
      case NoTarget =>
      case Target(target) => AllReachEach(accepts, [target], t);
    }
  }

  /** What a broadcast carries through a federation: the subject it would have had, under the id of the request. */
  function Federated(t: Transport, requestId: Token, targets: seq<Subject>): Transport {
    Transport(t.payload, t.replyTo,
              Some(Header(requestId, if t.federation.Some? then t.federation.value.replyTo else [], targets)), t.hops)
  }

  /** Anything but a direct request goes to each federation once, naming the one subject it has without them. */
  lemma BroadcastFederated(accepts: nat -> bool, federations: seq<Token>, msg: Message, t: Transport)
    requires (forall n :: accepts(n)) && federations != [] && msg.customTarget == [] && !msg.kind.DirectRequest?
    ensures
      var p := Published(accepts, federations, msg, t, Start);
      var target := match msg.kind
        case Request => [msg.collective, "broadcast", "agent", msg.agent]
        case ServiceRequest => [msg.collective, "broadcast", "service", msg.agent]
        case _ => msg.replyTo;
      && (p.err <==> msg.kind.PlainMessage? || (msg.kind.Reply? && msg.replyTo == []))
      && |p.sent| == (if p.err then 0 else |federations|)
      && forall i :: 0 <= i < |p.sent| ==>
           p.sent[i] == (["choria", "federation", federations[i], "federation"], Federated(t, msg.requestId, [target]))
  {
    ReachedAll(accepts, 0, |federations|);
  }

  /**
   * A direct request goes to each federation in ceil(n/200) messages that differ in their targets only; together these
   * are the node subjects of all hosts, in order, if no host is blank.
   */
  lemma DirectFederated(accepts: nat -> bool, federations: seq<Token>, msg: Message, t: Transport, f: Token)
    requires (forall n :: accepts(n)) && Distinct(federations) && f in federations && msg.customTarget == []
    requires msg.kind.DirectRequest? && NoBlanks(msg.discoveredHosts)
    ensures
      var p := Published(accepts, federations, msg, t, Start);
      var received := SentTo(p.sent, ["choria", "federation", f, "federation"]);
      && !p.err && |received| == (|msg.discoveredHosts| + 199) / 200
      && exists batches: seq<seq<Subject>> ::
           && |batches| == |received|
           && (forall k :: 0 <= k < |received| ==> received[k] == Federated(t, msg.requestId, batches[k]))
           && |Flatten(batches)| == |msg.discoveredHosts|
           && forall i :: 0 <= i < |msg.discoveredHosts| ==>
                Flatten(batches)[i] == [msg.collective, "node"] + msg.discoveredHosts[i]
  {
    hide SentTo, Flatten, PublishBatches, Batches;
    var batches := Batches(msg.collective, msg.discoveredHosts);
    FederationReceivesEveryBatch(accepts, federations, t, msg.requestId, batches, f);
    BatchShape(msg.collective, msg.discoveredHosts);
    BatchesAddressTheSameNodes(msg.collective, msg.discoveredHosts);
    assert FederationTarget(f, "federation") == ["choria", "federation", f, "federation"];
    forall k | 0 <= k < |batches|
      ensures AddressedAll(t, msg.requestId, batches)[k] == Federated(t, msg.requestId, batches[k])
    {
    }
  }

  /** Requests have the same subject only if they agree on kind, collective, and agent or node. */
  lemma SameTargetExactly(m: Message, identity: Subject, m': Message, identity': Subject)
    requires m.customTarget == [] && m'.customTarget == []
    requires m.kind.Request? || m.kind.DirectRequest? || m.kind.ServiceRequest?
    requires m'.kind.Request? || m'.kind.DirectRequest? || m'.kind.ServiceRequest?
    ensures TargetForMessage(m, identity) == TargetForMessage(m', identity') <==>
      && m.kind == m'.kind && m.collective == m'.collective
      && if m.kind.DirectRequest? then identity == identity' else m.agent == m'.agent
  {
    var s, s' := TargetForMessage(m, identity).subject, TargetForMessage(m', identity').subject;
    if s == s' {
      assert s[0] == s'[0] && s[1] == s'[1];
      if m.kind.DirectRequest? && m'.kind.DirectRequest? {
        assert s[2..] == identity && s'[2..] == identity';
      } else if !m.kind.DirectRequest? && !m'.kind.DirectRequest? {
        assert s[2] == s'[2] && s[3] == s'[3];
      }
    }
  }

  /** Where replies to a caller go, and where connections listen for them. */
  lemma ReplySubjectsAreLiteral(d: Digests, fips: bool, collective: Token, caller: string, requestId: Token, id: Token)
    ensures ReplyTarget(d, fips, collective, caller, requestId) ==
            [collective, "reply", if fips then d.sha256(caller) else d.md5(caller), requestId]
    ensures id != "" ==> InboxPrefix(collective, id) == [collective, "reply", id]
    ensures InboxPrefix(collective, "") == [collective, "reply"]
  {
  }

  // ---------------------------------------------------------------------------------------------------------
  // Connectors, brokers and nodes meet

  /** A broker listens for requests where connectors publish into the federation of its name. */
  lemma ConnectorMeetsBroker(federations: seq<Token>, n: nat, i: nat, t: Transport)
    requires i < n <= |federations|
    ensures Copies(federations, n, t)[i].0 == IngestSubject(federations[i], Requests)
            == ["choria", "federation", federations[i], "federation"]
    ensures IngestSubject(federations[i], Replies) == ["choria", "federation", federations[i], "collective"]
  {
  }

  lemma {:induction false} NothingVanishes(states: seq<Net>, events: seq<Event>, i: nat, j: nat)
    requires IsRun(states, events) && i <= j < |states|
    ensures states[i].federation <= states[j].federation && states[i].collective <= states[j].collective
    decreases j
  {
    if i < j {
      NothingVanishes(states, events, i, j - 1);
      assert Next(states[j - 1], events[j - 1], states[j]);
    }
  }

  /** In every run a request that was issued into a federation can be carried by its broker from then on. */
  lemma IssuedCanBeCarried(states: seq<Net>, events: seq<Event>, i: nat, j: nat, path: Path)
    requires IsRun(states, events) && i < j < |states| && events[i].IssueFederated?
    ensures exists n :: Next(states[j], CarryRequest(events[i].federationName, path, events[i].request), n)
  {
    var f, t := events[i].federationName, events[i].request;
    assert Next(states[i], events[i], states[i + 1]);
    NothingVanishes(states, events, i + 1, j);
    ConnectorMeetsBroker([f], 1, 0, t);
    var out := Transit(f, Requests, path, t);
    var n := states[j].(collective := states[j].collective +
      if out.Some? then ToTargets(out.value.0, out.value.1) else {});
    assert Next(states[j], CarryRequest(f, path, t), n);
  }

  /** The three steps of one answer. */
  function ThereAndBack(
    broker: Token, there: Path, back: Path, t: Transport, subject: Subject, out: Transport, reply: Transport,
    inCollective: Token, agent: Token, text: string, hop: Hop): seq<Event>
  {
    [CarryRequest(broker, there, t), Answer(subject, out, inCollective, agent, text, hop),
     CarryReply(broker, back, reply)]
  }

  /**
   * Whatever else happened, a request that was issued into a federation can be carried to each of its targets, answered
   * there, and the reply brought home: it arrives at the reply-to of the request, unfederated, with its id.
   */
  lemma RequestComesHome(
    states: seq<Net>, events: seq<Event>, i: nat, there: Path, back: Path, subject: Subject, inCollective: Token,
    agent: Token, text: string, hop: Hop) returns (home: Net, steps: seq<Event>, more: seq<Net>)
    requires IsRun(states, events) && i < |events| && events[i].IssueFederated?
    requires events[i].request.federation.Some? && subject in events[i].request.federation.value.targets
    ensures IsRun(states + more, events + steps) && |more| == |steps| == 3 && more[2] == home
    ensures exists m: Transport ::
      && (events[i].request.replyTo, m) in home.federation
      && m.payload == ReplyBody(events[i].request.payload.requestId, text) && m.federation.None?
  {
    hide Transit, NodeReply;
    var f, t, last := events[i].federationName, events[i].request, |states| - 1;
    assert Next(states[i], events[i], states[i + 1]);
    NothingVanishes(states, events, i + 1, last);
    ConnectorMeetsBroker([f], 1, 0, t);
    RoundTrip(f, there, back, t, inCollective, agent, text, hop);
    var n := states[last];
    var out := Transit(f, Requests, there, t).value;
    var n1 := n.(collective := n.collective + ToTargets(out.0, out.1));
    assert (subject, out.1) in n1.collective;
    var reply := NodeReply(out.1, inCollective, agent, text, hop).value;
    var n2 := n1.(collective := n1.collective + {reply});
    var back' := Transit(f, Replies, back, reply.1).value;
    var n3 := n2.(federation := n2.federation + ToTargets(back'.0, back'.1));
    assert (t.replyTo, back'.1) in n3.federation;
    more, home := [n1, n2, n3], n3;
    steps := ThereAndBack(f, there, back, t, subject, out.1, reply.1, inCollective, agent, text, hop);
    assert Next(n, steps[0], n1) && Next(n1, steps[1], n2) && Next(n2, steps[2], n3);
    Continues(states, events, more, steps);
  }

  lemma Continues(states: seq<Net>, events: seq<Event>, more: seq<Net>, steps: seq<Event>)
    requires IsRun(states, events) && |more| == |steps| == 3
    requires Next(states[|states| - 1], steps[0], more[0]) && Next(more[0], steps[1], more[1])
    requires Next(more[1], steps[2], more[2])
    ensures IsRun(states + more, events + steps)
  {
    hide Next;
    var all, es := states + more, events + steps;
    forall k | 0 <= k < |es| ensures Next(all[k], es[k], all[k + 1]) {
      if k < |events| {
        assert all[k] == states[k] && all[k + 1] == states[k + 1] && es[k] == events[k];
      } else {
        assert es[k] == steps[k - |events|] && all[k + 1] == more[k - |events|];
        assert k > |events| ==> all[k] == more[k - |events| - 1];
      }
    }
  }

  /** A node may publish its reply to a federated request only if the broker is named like one of its collectives. */
  lemma AnswerIsPublishableExactly(
    claims: ServerClaims, broker: Token, there: Path, t: Transport, collective: Token, agent: Token, text: string,
    hop: Hop)
    requires t.payload.RequestBody? && t.federation.Some? && t.federation.value.targets != [] && t.replyTo != []
    ensures
      var reply := NodeReply(Transit(broker, Requests, there, t).value.1, collective, agent, text, hop);
      Permits(ServerPublish(claims), reply.value.0) <==>
        || broker in claims.collectives
        || (&& claims.collectives != []
            && AnyMatches(claims.additionalPublish, ["choria", "federation", broker, "collective"]))
  {
    hide Permits, ServerPublish, AnyMatches, Transit, NodeReply;
    RoundTrip(broker, there, there, t, collective, agent, text, hop);
    FederatedReplyIsPublishable(claims, broker);
    assert FederationTarget(broker, "collective") == ["choria", "federation", broker, "collective"];
  }
}
