// Publishing by the connector (choria/connection.go), directly and into federations, and why the federated way of
// addressing nodes means the same as the direct one.
module Publishing {
  import opened Subjects
  import opened FederationMessages
  import opened Options

  // ---------------------------------------------------------------------------------------------------------
  // Batches of names (internal/util/util.go)

  function Blanks(n: nat): seq<Subject> {
    seq(n, _ => [])
  }

  /** The batches of `size` names, the last one padded with blanks. */
  function Groups(names: seq<Subject>, size: nat): (g: seq<seq<Subject>>)
    requires size > 0
  {
    if names == [] then []
    else if |names| <= size then [names + Blanks(size - |names|)]
    else [names[..size]] + Groups(names[size..], size)
  }

  /** Cutting a sequence into full chunks; what does not fill a chunk is lost. */
  function Chunks(s: seq<Subject>, size: nat): seq<seq<Subject>>
    requires size > 0
  {
    if |s| < size then [] else [s[..size]] + Chunks(s[size..], size)
  }

  lemma {:induction false} NextMultiple(size: nat, a: int, b: int)
    requires a < b
    ensures size * a + size <= size * b
    decreases b - a
  {
    if a + 1 < b {
      NextMultiple(size, a, b - 1);
    }
    assert size * b == size * (b - 1) + size;
  }

  lemma QuotientIsUnique(n: nat, size: nat, q: int, r: nat)
    requires r < size && n == size * q + r
    ensures n / size == q && n % size == r
  {
    var q', r' := n / size, n % size;
    assert n == size * q' + r';
    if q > q' {
      NextMultiple(size, q', q);
    } else if q < q' {
      NextMultiple(size, q, q');
    }
  }

  lemma OneChunkLess(n: nat, size: nat)
    requires 0 < size <= n
    ensures (n - size) / size == n / size - 1 && (n - size) % size == n % size
  {
    assert n - size == size * (n / size - 1) + n % size;
    QuotientIsUnique(n - size, size, n / size - 1, n % size);
  }

  lemma {:induction false} ChunkCount(s: seq<Subject>, size: nat)
    requires size > 0
    ensures |Chunks(s, size)| == |s| / size
  {
    if |s| >= size {
      ChunkCount(s[size..], size);
      OneChunkLess(|s|, size);
    } else {
      QuotientIsUnique(|s|, size, 0, |s|);
    }
  }

  /** One blank too many is appended, but it never fills a chunk. */
  lemma {:induction false} PaddedChunks(names: seq<Subject>, size: nat, padding: nat)
    requires size > 0 && padding == size - |names| % size
    ensures Chunks(names + Blanks(if padding != size then padding + 1 else 0), size) == Groups(names, size)
  {
    var extra := Blanks(if padding != size then padding + 1 else 0);
    if |names| < size {
      QuotientIsUnique(|names|, size, 0, |names|);
      if names != [] {
        assert (names + extra)[..size] == names + Blanks(size - |names|);
        assert |(names + extra)[size..]| == 1;
      }
    } else {
      OneChunkLess(|names|, size);
      PaddedChunks(names[size..], size, padding);
      assert (names + extra)[..size] == names[..size] == names[..size] + Blanks(0);
      assert (names + extra)[size..] == names[size..] + extra;
      assert |names| == size ==> names[..size] == names;
    }
  }

  method Padded(input: seq<Subject>, size: nat) returns (padded: seq<Subject>)
    requires size > 0
    ensures Chunks(padded, size) == Groups(input, size)
  {
    var padding := size - |input| % size;
    padded := input;
    if padding != size {
      var p: seq<Subject> := [];
      var i := 0;
      while i <= padding
        invariant 0 <= i <= padding + 1 && p == Blanks(i)
      {
        p := p + [[]];
        i := i + 1;
      }
      padded := padded + p;
    }
    assert padded == input + Blanks(if padding != size then padding + 1 else 0);
    PaddedChunks(input, size, padding);
  }

  method SliceGroups(input: seq<Subject>, size: nat) returns (groups: seq<seq<Subject>>)
    requires size > 0
    ensures groups == Groups(input, size)
  {
    var padded := Padded(input, size);
    var count := |padded| / size;
    ChunkCount(padded, size);
    groups := [];
    var i, at := 0, 0;
    while i < count
      invariant 0 <= i <= count && 0 <= at <= |padded|
      invariant groups + Chunks(padded[at..], size) == Chunks(padded, size)
      invariant |Chunks(padded[at..], size)| == count - i
    {
      assert padded[at..][..size] == padded[at..at + size];
      assert padded[at..][size..] == padded[at + size..];
      groups := groups + [padded[at..at + size]];
      at := at + size;
      i := i + 1;
    }
  }

  // ---------------------------------------------------------------------------------------------------------
  // Publishing

  const GroupSize: nat := 200

  /** The names of a batch up to the first blank one. */
  function UntilBlank(nodes: seq<Subject>): seq<Subject> {
    if nodes == [] || nodes[0] == [] then [] else [nodes[0]] + UntilBlank(nodes[1..])
  }

  function NodeTargets(collective: Token, hosts: seq<Subject>): seq<Subject> {
    seq(|hosts|, i requires 0 <= i < |hosts| => NodeDirectedTarget(collective, hosts[i]))
  }

  /** The target list of one batch. */
  function BatchTargets(collective: Token, nodes: seq<Subject>): seq<Subject> {
    NodeTargets(collective, UntilBlank(nodes))
  }

  /**
   * The transport message of one batch: the header is rewritten in place, so only its targets differ between batches.
   */
  function Addressed(t: Transport, requestId: Token, targets: seq<Subject>): Transport {
    t.(federation := Some(HeaderOf(t.federation).(requestId := requestId, targets := targets)))
  }

  lemma SameWhenAddressed(a: Transport, b: Transport, requestId: Token, targets: seq<Subject>)
    requires Addressed(a, requestId, []) == Addressed(b, requestId, [])
    ensures Addressed(a, requestId, targets) == Addressed(b, requestId, targets)
    ensures Addressed(Addressed(a, requestId, targets), requestId, []) == Addressed(a, requestId, [])
  {
  }

  /** How far publishing the same message to a list of federations gets: it stops at the first failure. */
  function Reached(accepts: nat -> bool, from: nat, count: nat): (n: nat)
    ensures n <= count
    decreases count
  {
    if count == 0 || !accepts(from) then 0 else 1 + Reached(accepts, from + 1, count - 1)
  }

  function Copies(federations: seq<Token>, n: nat, t: Transport): seq<(Subject, Transport)>
    requires n <= |federations|
  {
    seq(n, i requires 0 <= i < n => (FederationTarget(federations[i], "federation"), t))
  }

  /** The state of publishing batches: what was sent, the attempts made, whether the last batch failed. */
  datatype Progress = Progress(sent: seq<(Subject, Transport)>, attempts: nat, err: bool)

  function PublishBatch(accepts: nat -> bool, federations: seq<Token>, t: Transport, p: Progress): Progress {
    var n := Reached(accepts, p.attempts, |federations|);
    var failed := n < |federations|;
    Progress(p.sent + Copies(federations, n, t), p.attempts + n + if failed then 1 else 0, failed)
  }

  function PublishBatches(
    accepts: nat -> bool, federations: seq<Token>, t: Transport, requestId: Token,
    batches: seq<seq<Subject>>, p: Progress)
    : Progress
  {
    if batches == [] then p
    else
      var n := |batches| - 1;
      PublishBatch(accepts, federations, Addressed(t, requestId, batches[n]),
                   PublishBatches(accepts, federations, t, requestId, batches[..n], p))
  }

  /** The target lists of all batches of a host list. */
  function Batches(collective: Token, hosts: seq<Subject>): seq<seq<Subject>> {
    var groups := Groups(hosts, GroupSize);
    seq(|groups|, i requires 0 <= i < |groups| => BatchTargets(collective, groups[i]))
  }

  /** The same message on every target, in order. */
  function ToEach(targets: seq<Subject>, t: Transport): seq<(Subject, Transport)> {
    seq(|targets|, i requires 0 <= i < |targets| => (targets[i], t))
  }

  /** Publishing to a list of subjects: it stops at the first failure. */
  function PublishEach(accepts: nat -> bool, targets: seq<Subject>, t: Transport, p: Progress): Progress {
    var n := Reached(accepts, p.attempts, |targets|);
    var failed := n < |targets|;
    Progress(p.sent + ToEach(targets[..n], t), p.attempts + n + if failed then 1 else 0, failed)
  }

  function PublishBroadcast(accepts: nat -> bool, msg: Message, t: Transport, p: Progress): Progress {
    match TargetForMessage(msg, [])
    case NoTarget => p.(err := true)
    case Target(target) => PublishEach(accepts, [target], t, p)
  }

  function FederateBroadcast(accepts: nat -> bool, federations: seq<Token>, msg: Message, t: Transport,
      p: Progress): Progress {
    match TargetForMessage(msg, [])
    case NoTarget => p.(err := true)
    case Target(target) => PublishBatch(accepts, federations, Addressed(t, msg.requestId, [target]), p)
  }

  /** What publishing a message comes to: a custom target wins, then federations, then direct requests. */
  function Published(accepts: nat -> bool, federations: seq<Token>, msg: Message, t: Transport, p: Progress): Progress {
    if msg.customTarget != [] then PublishBroadcast(accepts, msg, t, p)
    else if federations != [] then
      if msg.kind.DirectRequest? then
        PublishBatches(accepts, federations, t, msg.requestId, Batches(msg.collective, msg.discoveredHosts), p)
      else FederateBroadcast(accepts, federations, msg, t, p)
    else if msg.kind.DirectRequest? then PublishEach(accepts, NodeTargets(msg.collective, msg.discoveredHosts), t, p)
    else PublishBroadcast(accepts, msg, t, p)
  }

  /** The publishing methods of a connection; encoding a message to JSON is taken to succeed. */
  class Connection {
    const wire: Wire
    const federations: seq<Token>

    constructor (wire: Wire, federations: seq<Token>)
      ensures this.wire == wire && this.federations == federations
    {
      this.wire, this.federations := wire, federations;
    }

    function Now(err: bool): Progress
      reads wire
    {
      Progress(wire.sent, wire.attempts, err)
    }

    method TargetsOf(collective: Token, nodes: seq<Subject>) returns (targets: seq<Subject>)
      ensures targets == BatchTargets(collective, nodes)
    {
      targets := [];
      var i := 0;
      while i < |nodes|
        invariant 0 <= i <= |nodes|
        invariant NodeTargets(collective, UntilBlank(nodes)) ==
                  targets + NodeTargets(collective, UntilBlank(nodes[i..]))
      {
        assert nodes[i..][0] == nodes[i] && nodes[i..][1..] == nodes[i + 1..];
        if nodes[i] == [] {
          break;
        }
        targets := targets + [NodeDirectedTarget(collective, nodes[i])];
        i := i + 1;
      }
    }

    method PublishToFederations(t: Transport) returns (err: bool)
      modifies wire
      ensures Now(err) == PublishBatch(wire.accepts, federations, t, old(Now(false)))
    {
      var i := 0;
      while i < |federations|
        invariant 0 <= i <= |federations|
        invariant wire.attempts == old(wire.attempts) + i
        invariant wire.sent == old(wire.sent) + Copies(federations, i, t)
        invariant Reached(wire.accepts, old(wire.attempts), |federations|) ==
                  i + Reached(wire.accepts, wire.attempts, |federations| - i)
      {
        err := wire.PublishRaw(FederationTarget(federations[i], "federation"), t);
        if err {
          return;
        }
        i := i + 1;
      }
      err := false;
    }

    /** One batch: the shared transport is re-addressed in place and goes to every federation. */
    method PublishGroup(msg: Message, t: Federable, nodes: seq<Subject>) returns (err: bool)
      modifies wire, t
      ensures t.Value() == Addressed(old(t.Value()), msg.requestId, BatchTargets(msg.collective, nodes))
      ensures Now(err) == PublishBatch(wire.accepts, federations, t.Value(), old(Now(false)))
    {
      var targets := TargetsOf(msg.collective, nodes);
      t.SetFederationRequestID(msg.requestId);
      t.SetFederationTargets(targets);
      err := PublishToFederations(t.Value());
    }

    method PublishFederatedDirect(msg: Message, t: Federable) returns (err: bool)
      modifies wire, t
      ensures Now(err) == PublishBatches(wire.accepts, federations, old(t.Value()), msg.requestId,
                                         Batches(msg.collective, msg.discoveredHosts), old(Now(false)))
    {
      err := false;
      var groups := SliceGroups(msg.discoveredHosts, GroupSize);
      ghost var batches := Batches(msg.collective, msg.discoveredHosts);
      ghost var start := t.Value();
      var i := 0;
      while i < |groups|
        invariant 0 <= i <= |groups| == |batches|
        invariant Addressed(t.Value(), msg.requestId, []) == Addressed(start, msg.requestId, [])
        invariant Now(err) == PublishBatches(wire.accepts, federations, start, msg.requestId, batches[..i],
                                            old(Now(false)))
      {
        assert batches[..i + 1][..i] == batches[..i];
        SameWhenAddressed(t.Value(), start, msg.requestId, batches[i]);
        err := PublishGroup(msg, t, groups[i]);
        i := i + 1;
      }
      assert batches[..i] == batches;
    }

    method PublishFederatedBroadcast(msg: Message, t: Federable) returns (err: bool)
      modifies wire, t
      ensures Now(err) == FederateBroadcast(wire.accepts, federations, msg, old(t.Value()), old(Now(false)))
    {
      var target := TargetForMessage(msg, []);
      if target.NoTarget? {
        return true;
      }
      t.SetFederationRequestID(msg.requestId);
      t.SetFederationTargets([target.subject]);
      err := PublishToFederations(t.Value());
    }

    method PublishFederated(msg: Message, t: Federable) returns (err: bool)
      requires federations != [] && msg.customTarget == []
      modifies wire, t
      ensures Now(err) == Published(wire.accepts, federations, msg, old(t.Value()), old(Now(false)))
    {
      if msg.kind == DirectRequest {
        err := PublishFederatedDirect(msg, t);
      } else {
        err := PublishFederatedBroadcast(msg, t);
      }
    }

    method PublishConnectedBroadcast(msg: Message, t: Federable) returns (err: bool)
      modifies wire
      ensures Now(err) == PublishBroadcast(wire.accepts, msg, t.Value(), old(Now(false)))
    {
      var target := TargetForMessage(msg, []);
      if target.NoTarget? {
        return true;
      }
      err := wire.PublishRaw(target.subject, t.Value());
      assert Reached(wire.accepts, old(wire.attempts) + 1, 0) == 0;
      assert ToEach([target.subject][..if err then 0 else 1], t.Value()) ==
             if err then [] else [(target.subject, t.Value())];
    }

    method PublishConnectedDirect(msg: Message, t: Federable) returns (err: bool)
      requires msg.kind == DirectRequest && msg.customTarget == []
      modifies wire
      ensures Now(err) == PublishEach(wire.accepts, NodeTargets(msg.collective, msg.discoveredHosts), t.Value(),
                                      old(Now(false)))
    {
      var hosts := msg.discoveredHosts;
      ghost var targets := NodeTargets(msg.collective, hosts);
      var i := 0;
      while i < |hosts|
        invariant 0 <= i <= |hosts|
        invariant wire.attempts == old(wire.attempts) + i
        invariant wire.sent == old(wire.sent) + ToEach(targets[..i], t.Value())
        invariant Reached(wire.accepts, old(wire.attempts), |hosts|) ==
                  i + Reached(wire.accepts, wire.attempts, |hosts| - i)
      {
        err := wire.PublishRaw(TargetForMessage(msg, hosts[i]).subject, t.Value());
        if err {
          return;
        }
        i := i + 1;
      }
      err := false;
    }

    method PublishConnected(msg: Message, t: Federable) returns (err: bool)
      requires federations == [] && msg.customTarget == []
      modifies wire
      ensures Now(err) == Published(wire.accepts, federations, msg, t.Value(), old(Now(false)))
    {
      if msg.kind == DirectRequest {
        err := PublishConnectedDirect(msg, t);
      } else {
        err := PublishConnectedBroadcast(msg, t);
      }
    }

    /** Records the own hop, then publishes as the message and the connection demand. */
    method Publish(msg: Message, t: Federable, hop: Hop) returns (err: bool)
      modifies wire, t
      ensures
        var leaving := old(t.Value()).(hops := old(t.hops) + [hop]);
        Now(err) == Published(wire.accepts, federations, msg, leaving, old(Now(false)))
    {
      t.RecordNetworkHop(hop);
      if msg.customTarget != [] {
        err := PublishConnectedBroadcast(msg, t);
      } else if |federations| > 0 {
        err := PublishFederated(msg, t);
      } else {
        err := PublishConnected(msg, t);
      }
    }
  }

  // ---------------------------------------------------------------------------------------------------------
  // The batches address the same nodes

  predicate NoBlanks(names: seq<Subject>) {
    forall i :: 0 <= i < |names| ==> names[i] != []
  }

  function Flatten<T>(s: seq<seq<T>>): seq<T> {
    if s == [] then [] else s[0] + Flatten(s[1..])
  }

  /** A padded batch keeps all its names exactly when none is blank. */
  lemma {:induction false} UntilBlankKeeps(names: seq<Subject>, padding: nat)
    ensures |UntilBlank(names + Blanks(padding))| <= |names|
    ensures |UntilBlank(names + Blanks(padding))| == |names| <==> NoBlanks(names)
    ensures NoBlanks(names) ==> UntilBlank(names + Blanks(padding)) == names
  {
    var all := names + Blanks(padding);
    if names == [] {
      assert padding > 0 ==> all[0] == [];
    } else {
      UntilBlankKeeps(names[1..], padding);
      assert all[0] == names[0] && all[1..] == names[1..] + Blanks(padding);
      assert NoBlanks(names) <==> names[0] != [] && NoBlanks(names[1..]) by {
        assert forall i :: 0 < i < |names| ==> names[i] == names[1..][i - 1];
      }
    }
  }

  lemma BatchesUnfold(collective: Token, hosts: seq<Subject>)
    requires |hosts| > GroupSize
    ensures Batches(collective, hosts) ==
            [BatchTargets(collective, hosts[..GroupSize])] + Batches(collective, hosts[GroupSize..])
  {
  }

  /** However many hosts: ceil(n/200) batches of at most 200 targets. */
  lemma {:induction false} BatchShape(collective: Token, hosts: seq<Subject>)
    ensures |Batches(collective, hosts)| == (|hosts| + GroupSize - 1) / GroupSize
    ensures forall k :: 0 <= k < |Batches(collective, hosts)| ==> |Batches(collective, hosts)[k]| <= GroupSize
    ensures NoBlanks(hosts) ==>
            forall k :: 0 <= k < |Batches(collective, hosts)| ==> Batches(collective, hosts)[k] != []
  {
    if |hosts| > GroupSize {
      BatchShape(collective, hosts[GroupSize..]);
      BatchesUnfold(collective, hosts);
      UntilBlankKeeps(hosts[..GroupSize], 0);
      assert hosts[..GroupSize] + Blanks(0) == hosts[..GroupSize];
      assert NoBlanks(hosts) ==> NoBlanks(hosts[GroupSize..]) by {
        assert forall i :: 0 <= i < |hosts| - GroupSize ==> hosts[GroupSize..][i] == hosts[GroupSize + i];
      }
    } else if hosts != [] {
      UntilBlankKeeps(hosts, GroupSize - |hosts|);
    }
  }

  /** The batches concatenate to exactly the subjects of direct publishing, if and only if no host name is blank. */
  lemma {:induction false} BatchesAddressTheSameNodes(collective: Token, hosts: seq<Subject>)
    ensures |Flatten(Batches(collective, hosts))| <= |hosts|
    ensures |Flatten(Batches(collective, hosts))| == |hosts| <==> NoBlanks(hosts)
    ensures Flatten(Batches(collective, hosts)) == NodeTargets(collective, hosts) <==> NoBlanks(hosts)
  {
    if |hosts| > GroupSize {
      var first, rest := hosts[..GroupSize], hosts[GroupSize..];
      BatchesAddressTheSameNodes(collective, rest);
      BatchesUnfold(collective, hosts);
      UntilBlankKeeps(first, 0);
      assert first + Blanks(0) == first;
      assert NoBlanks(hosts) <==> NoBlanks(first) && NoBlanks(rest) by {
        assert forall i :: GroupSize <= i < |hosts| ==> hosts[i] == rest[i - GroupSize];
      }
      assert Batches(collective, hosts)[1..] == Batches(collective, rest);
      assert NodeTargets(collective, hosts) == NodeTargets(collective, first) + NodeTargets(collective, rest);
    } else if hosts != [] {
      UntilBlankKeeps(hosts, GroupSize - |hosts|);
      assert Batches(collective, hosts)[1..] == [];
    }
  }

  // ---------------------------------------------------------------------------------------------------------
  // One broker transit turns the batches into what direct publishing sends

  function SentTo(log: seq<(Subject, Transport)>, target: Subject): seq<Transport> {
    if log == [] then []
    else SentTo(log[..|log| - 1], target) + if log[|log| - 1].0 == target then [log[|log| - 1].1] else []
  }

  lemma {:induction false} SentToConcat(a: seq<(Subject, Transport)>, b: seq<(Subject, Transport)>, target: Subject)
    ensures SentTo(a + b, target) == SentTo(a, target) + SentTo(b, target)
  {
    if b == [] {
      assert a + b == a;
    } else {
      SentToConcat(a, b[..|b| - 1], target);
      assert (a + b)[..|a + b| - 1] == a + b[..|b| - 1];
    }
  }

  predicate Distinct(names: seq<Token>) {
    forall i, j :: 0 <= i < j < |names| ==> names[i] != names[j]
  }

  lemma {:induction false} OneCopyEach(federations: seq<Token>, n: nat, t: Transport, f: Token)
    requires Distinct(federations) && n <= |federations|
    ensures SentTo(Copies(federations, n, t), FederationTarget(f, "federation")) ==
            if f in federations[..n] then [t] else []
  {
    if n > 0 {
      var log := Copies(federations, n, t);
      OneCopyEach(federations, n - 1, t, f);
      assert log[..n - 1] == Copies(federations, n - 1, t);
      assert log[n - 1] == (FederationTarget(federations[n - 1], "federation"), t);
      assert FederationTarget(federations[n - 1], "federation")[2] == federations[n - 1];
      assert federations[..n] == federations[..n - 1] + [federations[n - 1]];
    }
  }

  lemma {:induction false} ReachedAll(accepts: nat -> bool, from: nat, count: nat)
    ensures Reached(accepts, from, count) == count <==> forall n :: from <= n < from + count ==> accepts(n)
    decreases count
  {
    if count > 0 {
      ReachedAll(accepts, from + 1, count - 1);
    }
  }

  function AddressedAll(t: Transport, requestId: Token, batches: seq<seq<Subject>>): seq<Transport> {
    seq(|batches|, k requires 0 <= k < |batches| => Addressed(t, requestId, batches[k]))
  }

  /** Without failures each federation receives every batch once, in order. */
  lemma {:induction false} FederationReceivesEveryBatch(
    accepts: nat -> bool, federations: seq<Token>, t: Transport, requestId: Token, batches: seq<seq<Subject>>, f: Token)
    requires (forall n :: accepts(n)) && Distinct(federations) && f in federations
    ensures var p := PublishBatches(accepts, federations, t, requestId, batches, Progress([], 0, false));
            !p.err && SentTo(p.sent, FederationTarget(f, "federation")) == AddressedAll(t, requestId, batches)
  {
    hide Copies, Addressed, FederationTarget;
    if batches != [] {
      var n := |batches| - 1;
      var p := PublishBatches(accepts, federations, t, requestId, batches[..n], Progress([], 0, false));
      var m := Addressed(t, requestId, batches[n]);
      FederationReceivesEveryBatch(accepts, federations, t, requestId, batches[..n], f);
      ReachedAll(accepts, p.attempts, |federations|);
      OneCopyEach(federations, |federations|, m, f);
      assert federations[..|federations|] == federations;
      SentToConcat(p.sent, Copies(federations, |federations|, m), FederationTarget(f, "federation"));
    }
  }

  function PayloadToEach(targets: seq<Subject>, p: Payload): seq<(Subject, Payload)> {
    seq(|targets|, i requires 0 <= i < |targets| => (targets[i], p))
  }

  /** What a federation broker publishes into its collective for one message of the federation. */
  function BrokerPublishes(broker: Token, t: Transport): seq<(Subject, Payload)> {
    match Ingest(t, "", "")
    case None => []
    case Some(cm) =>
      match TransformRequest(broker, "", cm)
      case Drop => []
      case Forward(out) => PayloadToEach(out.targets, out.message.payload)
  }

  function BrokerPublishesAll(broker: Token, ts: seq<Transport>): seq<(Subject, Payload)> {
    if ts == [] then [] else BrokerPublishes(broker, ts[0]) + BrokerPublishesAll(broker, ts[1..])
  }

  lemma {:induction false} TransitOfBatches(broker: Token, t: Transport, requestId: Token, batches: seq<seq<Subject>>)
    requires t.replyTo != []
    ensures BrokerPublishesAll(broker, AddressedAll(t, requestId, batches)) ==
            PayloadToEach(Flatten(batches), t.payload)
  {
    if batches != [] {
      TransitOfBatches(broker, t, requestId, batches[1..]);
      assert AddressedAll(t, requestId, batches)[1..] == AddressedAll(t, requestId, batches[1..]);
      assert BrokerPublishes(broker, Addressed(t, requestId, batches[0])) == PayloadToEach(batches[0], t.payload);
    }
  }

  /**
   * Federated direct publishing refines direct publishing: after one transit of broker `f` every node subject that
   * direct publishing uses received the same payload, once and in the same order, if and only if no host is blank.
   */
  lemma FederatedRefinesDirect(
    accepts: nat -> bool, federations: seq<Token>, t: Transport, requestId: Token, collective: Token,
    hosts: seq<Subject>, f: Token)
    requires (forall n :: accepts(n)) && Distinct(federations) && f in federations && t.replyTo != []
    ensures
      var p := PublishBatches(accepts, federations, t, requestId, Batches(collective, hosts), Progress([], 0, false));
      var received := SentTo(p.sent, FederationTarget(f, "federation"));
      BrokerPublishesAll(f, received) == PayloadToEach(NodeTargets(collective, hosts), t.payload) <==> NoBlanks(hosts)
  {
    var batches := Batches(collective, hosts);
    FederationReceivesEveryBatch(accepts, federations, t, requestId, batches, f);
    TransitOfBatches(f, t, requestId, batches);
    BatchesAddressTheSameNodes(collective, hosts);
    var all := PayloadToEach(Flatten(batches), t.payload);
    var direct := PayloadToEach(NodeTargets(collective, hosts), t.payload);
    assert |all| == |Flatten(batches)| && |direct| == |hosts|;
  }

  function PayloadsOf(log: seq<(Subject, Transport)>): seq<(Subject, Payload)> {
    seq(|log|, i requires 0 <= i < |log| => (log[i].0, log[i].1.payload))
  }

  lemma AllReachEach(accepts: nat -> bool, targets: seq<Subject>, t: Transport)
    requires forall n :: accepts(n)
    ensures PublishEach(accepts, targets, t, Progress([], 0, false)) == Progress(ToEach(targets, t), |targets|, false)
  {
    ReachedAll(accepts, 0, |targets|);
    assert targets[..|targets|] == targets;
  }

  /** One federation's copy of a broadcast, after one transit, is the broadcast. */
  lemma BroadcastTransit(accepts: nat -> bool, federations: seq<Token>, t: Transport, requestId: Token,
      target: Subject, f: Token)
    requires (forall n :: accepts(n)) && Distinct(federations) && f in federations && t.replyTo != []
    ensures
      var p := PublishBatch(accepts, federations, Addressed(t, requestId, [target]), Progress([], 0, false));
      && !p.err
      && BrokerPublishesAll(f, SentTo(p.sent, FederationTarget(f, "federation"))) == [(target, t.payload)]
  {
    var batches := [[target]];
    OneBatch(accepts, federations, t, requestId, [target]);
    FederationReceivesEveryBatch(accepts, federations, t, requestId, batches, f);
    TransitOfBatches(f, t, requestId, batches);
    assert Flatten(batches) == [target] + Flatten(batches[1..]) == [target];
  }

  lemma OneBatch(accepts: nat -> bool, federations: seq<Token>, t: Transport, requestId: Token, targets: seq<Subject>)
    ensures PublishBatches(accepts, federations, t, requestId, [targets], Progress([], 0, false))
            == PublishBatch(accepts, federations, Addressed(t, requestId, targets), Progress([], 0, false))
  {
    assert [targets][..0] == [];
  }

  /**
   * Publishing into federations refines publishing without them, for every kind of message: what the broker of each
   * federation makes of what it received is exactly what the unfederated connection would send, and the same errors
   * are returned; for direct requests if and only if no host is blank.
   */
  lemma PublishRefinesExactly(accepts: nat -> bool, federations: seq<Token>, msg: Message, t: Transport, f: Token)
    requires (forall n :: accepts(n)) && Distinct(federations) && f in federations
      && t.replyTo != [] && msg.customTarget == []
    ensures
      var start := Progress([], 0, false);
      var federated := Published(accepts, federations, msg, t, start);
      var direct := Published(accepts, [], msg, t, start);
      && federated.err == direct.err
      && (BrokerPublishesAll(f, SentTo(federated.sent, FederationTarget(f, "federation"))) == PayloadsOf(direct.sent)
          <==> (msg.kind.DirectRequest? ==> NoBlanks(msg.discoveredHosts)))
  {
    if msg.kind.DirectRequest? {
      var targets := NodeTargets(msg.collective, msg.discoveredHosts);
      AllReachEach(accepts, targets, t);
      FederationReceivesEveryBatch(accepts, federations, t, msg.requestId,
                                   Batches(msg.collective, msg.discoveredHosts), f);
      FederatedRefinesDirect(accepts, federations, t, msg.requestId, msg.collective, msg.discoveredHosts, f);
      assert PayloadsOf(ToEach(targets, t)) == PayloadToEach(targets, t.payload);
    } else {
      BroadcastRefines(accepts, federations, msg, t, f);
    }
  }

  lemma BroadcastRefines(accepts: nat -> bool, federations: seq<Token>, msg: Message, t: Transport, f: Token)
    requires (forall n :: accepts(n)) && Distinct(federations) && f in federations && t.replyTo != []
    ensures
      var federated := FederateBroadcast(accepts, federations, msg, t, Progress([], 0, false));
      var direct := PublishBroadcast(accepts, msg, t, Progress([], 0, false));
      && federated.err == direct.err
      && BrokerPublishesAll(f, SentTo(federated.sent, FederationTarget(f, "federation"))) == PayloadsOf(direct.sent)
  {
    match TargetForMessage(msg, [])
    case NoTarget =>
    case Target(target) =>
      AllReachEach(accepts, [target], t);
      BroadcastTransit(accepts, federations, t, msg.requestId, target, f);
  }

  // ---------------------------------------------------------------------------------------------------------
  // Which failures are reported

  /** The error that is returned is the one of the last batch. */
  lemma ErrorIsTheLastBatch(
    accepts: nat -> bool, federations: seq<Token>, t: Transport, requestId: Token, batches: seq<seq<Subject>>)
    requires batches != []
    ensures
      var before := PublishBatches(accepts, federations, t, requestId, batches[..|batches| - 1],
                                   Progress([], 0, false));
      PublishBatches(accepts, federations, t, requestId, batches, Progress([], 0, false)).err <==>
      exists n :: before.attempts <= n < before.attempts + |federations| && !accepts(n)
  {
    var before := PublishBatches(accepts, federations, t, requestId, batches[..|batches| - 1], Progress([], 0, false));
    ReachedAll(accepts, before.attempts, |federations|);
  }

  /** Every batch for every federation. */
  function AllCopies(federations: seq<Token>, t: Transport, requestId: Token, batches: seq<seq<Subject>>)
    : seq<(Subject, Transport)>
  {
    if batches == [] then []
    else
      var n := |batches| - 1;
      AllCopies(federations, t, requestId, batches[..n])
      + Copies(federations, |federations|, Addressed(t, requestId, batches[n]))
  }

  lemma {:induction false} NothingToSend(accepts: nat -> bool, t: Transport, requestId: Token,
      batches: seq<seq<Subject>>)
    ensures PublishBatches(accepts, [], t, requestId, batches, Progress([], 0, false)).sent
            == AllCopies([], t, requestId, batches)
  {
    if batches != [] {
      NothingToSend(accepts, t, requestId, batches[..|batches| - 1]);
    }
  }

  /** A first batch that fails is forgotten when the later ones succeed. */
  lemma {:induction false} FirstFailureIsForgotten(
    federations: seq<Token>, t: Transport, requestId: Token, batches: seq<seq<Subject>>)
    requires federations != [] && batches != []
    ensures var p := PublishBatches(n => n != 0, federations, t, requestId, batches, Progress([], 0, false));
            p.attempts >= 1 && |p.sent| < |AllCopies(federations, t, requestId, batches)| && (|batches| > 1 ==> !p.err)
  {
    var accepts: nat -> bool := n => n != 0;
    var k := |batches| - 1;
    var before := PublishBatches(accepts, federations, t, requestId, batches[..k], Progress([], 0, false));
    if k == 0 {
      assert batches[..k] == [];
      assert Reached(accepts, 0, |federations|) == 0;
    } else {
      FirstFailureIsForgotten(federations, t, requestId, batches[..k]);
      ReachedAll(accepts, before.attempts, |federations|);
    }
  }

  /**
   * "No error" means everything was sent, whatever fails, exactly for host lists of one batch (or without federations):
   * with more hosts a failed batch goes unreported.
   */
  lemma SilenceIsTrustworthyExactly(federations: seq<Token>, t: Transport, requestId: Token,
      collective: Token, hosts: seq<Subject>)
    ensures
      (forall accepts: nat -> bool ::
         var p := PublishBatches(accepts, federations, t, requestId, Batches(collective, hosts),
                                 Progress([], 0, false));
         !p.err ==> p.sent == AllCopies(federations, t, requestId, Batches(collective, hosts)))
      <==> |hosts| <= GroupSize || federations == []
  {
    var batches := Batches(collective, hosts);
    BatchShape(collective, hosts);
    if |hosts| > GroupSize && federations != [] {
      FirstFailureIsForgotten(federations, t, requestId, batches);
      var accepts: nat -> bool := n => n != 0;
      var p := PublishBatches(accepts, federations, t, requestId, batches, Progress([], 0, false));
      assert !(!p.err ==> p.sent == AllCopies(federations, t, requestId, batches));
    } else {
      forall accepts: nat -> bool
        ensures var p := PublishBatches(accepts, federations, t, requestId, batches, Progress([], 0, false));
                !p.err ==> p.sent == AllCopies(federations, t, requestId, batches)
      {
        if federations == [] {
          NothingToSend(accepts, t, requestId, batches);
        } else if |batches| == 1 {
          assert batches[..0] == [];
        }
      }
    }
  }
}
