// One chain of a federation broker as a step system: pools of ingest, transformer and egest workers around two bounded
// channels (broker/federation/pooled_worker.go, federation.go and the four worker loops), under every interleaving.
module Pipeline {
  import opened Options
  import opened Subjects
  import opened FederationMessages
  import Runs

  /** A message in the chain; the tag is its position in the order of admission. */
  datatype Item = Item(tag: nat, cm: Chain)

  /** The wiring of a chain: fedIn.To(requestT), requestT.To(collectiveOut) and their mirror images. */
  datatype Wiring = Wiring(broker: Token, side: Side, firstCapacity: nat, secondCapacity: nat, identity: string)

  /** What publishing to the targets of a message came to: what was sent, and how many attempts failed. */
  datatype Tally = Tally(sent: seq<(Subject, Transport)>, failed: nat)

  /** The egest loop over the first `n` targets; a failed attempt is counted and the loop goes on. */
  function Egest(targets: seq<Subject>, outcomes: seq<bool>, t: Transport, n: nat): Tally
    requires n <= |targets| == |outcomes|
  {
    if n == 0 then Tally([], 0)
    else
      var before := Egest(targets, outcomes, t, n - 1);
      if outcomes[n - 1] then before.(sent := before.sent + [(targets[n - 1], t)])
        else before.(failed := before.failed + 1)
  }

  /** What egest did with a message it received; the outcome of each attempt to publish, if it could be encoded. */
  datatype Receipt = Receipt(item: Item, wire: Transport, outcomes: Option<seq<bool>>)

  /**
   * Each worker has at most one message in hand; `admitted` remembers every message that was let in, `wire` what was
   * published. `published` and `errors` are the counters of the source.
   */
  datatype State = State(
    ingest: seq<Option<Item>>, first: seq<Item>, transform: seq<Option<Item>>,
    second: seq<Item>, egest: seq<Option<Item>>,
    dropped: seq<Item>, received: seq<Receipt>,
    admitted: seq<Transport>, rejected: nat, noTargets: nat, wire: seq<(Subject, Transport)>,
    published: nat, errors: nat)

  function Free(n: nat): seq<Option<Item>> {
    seq(n, _ => None)
  }

  function Started(ingesters: nat, transformers: nat, egesters: nat): State {
    State(Free(ingesters), [], Free(transformers), [], Free(egesters), [], [], [], 0, 0, [], 0, 0)
  }

  datatype Event =
    | Arrive(worker: nat, message: Option<Transport>, server: string, name: string)
    | Enqueue(worker: nat)
    | Transform(worker: nat, name: string)
    | Hand(worker: nat)
    | Fetch(worker: nat)
    | Publish(worker: nat, name: string, server: string, outcomes: Option<seq<bool>>)

  ghost predicate Holding(hands: seq<Option<Item>>, w: nat) {
    w < |hands| && hands[w].Some?
  }

  ghost predicate Idle(hands: seq<Option<Item>>, w: nat) {
    w < |hands| && hands[w].None?
  }

  ghost predicate Enabled(k: Wiring, s: State, e: Event) {
    match e
    case Arrive(w, _, _, _) => Idle(s.ingest, w)
    case Enqueue(w) => Holding(s.ingest, w) && |s.first| < k.firstCapacity
    case Transform(w, _) => Idle(s.transform, w) && s.first != []
    case Hand(w) => Holding(s.transform, w) && |s.second| < k.secondCapacity
    case Fetch(w) => Idle(s.egest, w) && s.second != []
    case Publish(w, _, _, outcomes) =>
      Holding(s.egest, w) && (outcomes.Some? ==> |outcomes.value| == |s.egest[w].value.cm.targets|)
  }

  /** The state after an enabled event. */
  ghost function After(k: Wiring, s: State, e: Event): State
    requires Enabled(k, s, e)
  {
    match e
    case Arrive(w, message, server, name) =>
      var cm := if message.Some? then Ingest(message.value, server, name) else None;
      if cm.None? then s.(rejected := s.rejected + 1, errors := s.errors + 1)
      else s.(ingest := s.ingest[w := Some(Item(|s.admitted|, cm.value))], admitted := s.admitted + [message.value])
    case Enqueue(w) =>
      s.(first := s.first + [s.ingest[w].value], ingest := s.ingest[w := None])
    case Transform(w, name) =>
      var item := s.first[0];
      (match FederationMessages.Transform(k.side, k.broker, name, item.cm)
       case Drop => s.(first := s.first[1..], dropped := s.dropped + [item], errors := s.errors + 1)
       case Forward(cm) => s.(first := s.first[1..], transform := s.transform[w := Some(Item(item.tag, cm))]))
    case Hand(w) =>
      s.(second := s.second + [s.transform[w].value], transform := s.transform[w := None])
    case Fetch(w) =>
      s.(second := s.second[1..], egest := s.egest[w := Some(s.second[0])])
    case Publish(w, name, server, outcomes) =>
      var item := s.egest[w].value;
      var free := s.(egest := s.egest[w := None]);
      if item.cm.targets == [] then
        free.(dropped := s.dropped + [item], noTargets := s.noTargets + 1, errors := s.errors + 1)
      else
        var out := Leaving(item.cm, k.identity, name, server);
        var done := free.(received := s.received + [Receipt(item, out, outcomes)]);
        if outcomes.None? then done.(errors := s.errors + 1)
        else
          var tally := Egest(item.cm.targets, outcomes.value, out, |item.cm.targets|);
          done.(wire := s.wire + tally.sent, published := s.published + |tally.sent|, errors := s.errors + tally.failed)
  }

  ghost predicate Next(k: Wiring, s: State, e: Event, s': State) {
    Enabled(k, s, e) && s' == After(k, s, e)
  }

  ghost predicate Init(s: State) {
    exists i, t, e :: s == Started(i, t, e)
  }

  ghost predicate IsRun(k: Wiring, states: seq<State>, events: seq<Event>) {
    Runs.IsRun(Init, (s, e, s') => Next(k, s, e, s'), states, events)
  }

  // ---------------------------------------------------------------------------------------------------------
  // Conservation

  /** How often a tag occurs among messages, among hands, and among receipts. */
  function InItems(items: seq<Item>, tag: nat): nat {
    if items == [] then 0 else InItems(items[1..], tag) + if items[0].tag == tag then 1 else 0
  }

  function InHands(hands: seq<Option<Item>>, tag: nat): nat {
    if hands == [] then 0 else InHands(hands[1..], tag) + if hands[0].Some? && hands[0].value.tag == tag then 1 else 0
  }

  function InReceipts(rs: seq<Receipt>, tag: nat): nat {
    if rs == [] then 0 else InReceipts(rs[1..], tag) + if rs[0].item.tag == tag then 1 else 0
  }

  /** How often a message is anywhere: in a worker's hands, in a channel, dropped, or received by egest. */
  function Occurrences(s: State, tag: nat): nat {
    InHands(s.ingest, tag) + InItems(s.first, tag) + InHands(s.transform, tag) + InItems(s.second, tag)
    + InHands(s.egest, tag) + InItems(s.dropped, tag) + InReceipts(s.received, tag)
  }

  lemma {:induction false} InItemsSnoc(items: seq<Item>, item: Item, tag: nat)
    ensures InItems(items + [item], tag) == InItems(items, tag) + if item.tag == tag then 1 else 0
  {
    if items != [] {
      InItemsSnoc(items[1..], item, tag);
      assert (items + [item])[1..] == items[1..] + [item];
    }
  }

  lemma {:induction false} InReceiptsSnoc(rs: seq<Receipt>, r: Receipt, tag: nat)
    ensures InReceipts(rs + [r], tag) == InReceipts(rs, tag) + if r.item.tag == tag then 1 else 0
  {
    if rs != [] {
      InReceiptsSnoc(rs[1..], r, tag);
      assert (rs + [r])[1..] == rs[1..] + [r];
    }
  }

  /** A worker picks a message up or puts it down. */
  lemma {:induction false} InHandsUpdate(hands: seq<Option<Item>>, w: nat, h: Option<Item>, tag: nat)
    requires w < |hands|
    ensures InHands(hands[w := h], tag) + (if hands[w].Some? && hands[w].value.tag == tag then 1 else 0)
            == InHands(hands, tag) + (if h.Some? && h.value.tag == tag then 1 else 0)
  {
    var after := hands[w := h];
    if w == 0 {
      assert after[1..] == hands[1..];
    } else {
      InHandsUpdate(hands[1..], w - 1, h, tag);
      assert after[1..] == hands[1..][w - 1 := h];
    }
  }

  lemma {:induction false} FreeHandsHoldNothing(n: nat, tag: nat)
    ensures InHands(Free(n), tag) == 0
  {
    if n > 0 {
      FreeHandsHoldNothing(n - 1, tag);
      assert Free(n)[1..] == Free(n - 1);
    }
  }

  /** Admission adds one occurrence of the next tag, every other step moves one message from one place to another. */
  lemma NextConserves(k: Wiring, s: State, e: Event, s': State, tag: nat)
    requires Next(k, s, e, s')
    ensures Occurrences(s', tag) == Occurrences(s, tag) + if |s.admitted| <= tag < |s'.admitted| then 1 else 0
    ensures |s.admitted| <= |s'.admitted|
  {
    match e
    case Arrive(w, message, server, name) =>
      InHandsUpdate(s.ingest, w, s'.ingest[w], tag);
      assert s'.ingest == s.ingest[w := s'.ingest[w]];
    case Enqueue(w) =>
      InHandsUpdate(s.ingest, w, None, tag);
      InItemsSnoc(s.first, s.ingest[w].value, tag);
    case Transform(w, name) =>
      InHandsUpdate(s.transform, w, s'.transform[w], tag);
      assert s'.transform == s.transform[w := s'.transform[w]];
      InItemsSnoc(s.dropped, s.first[0], tag);
    case Hand(w) =>
      InHandsUpdate(s.transform, w, None, tag);
      InItemsSnoc(s.second, s.transform[w].value, tag);
    case Fetch(w) =>
      InHandsUpdate(s.egest, w, Some(s.second[0]), tag);
    case Publish(w, name, server, outcomes) =>
      InHandsUpdate(s.egest, w, None, tag);
      InItemsSnoc(s.dropped, s.egest[w].value, tag);
      if s'.received != s.received {
        InReceiptsSnoc(s.received, s'.received[|s.received|], tag);
      }
  }

  // ---------------------------------------------------------------------------------------------------------
  // What is where

  /** Waiting for the transformer: the admitted message as it came, with the two entries ingest wrote. */
  ghost predicate Fresh(admitted: seq<Transport>, item: Item) {
    && item.tag < |admitted| && item.cm.message == admitted[item.tag] && admitted[item.tag].federation.Some?
    && item.cm == Chain([], admitted[item.tag].federation.value.requestId, admitted[item.tag], item.cm.seen)
    && |item.cm.seen| == 2
  }

  /** Past the transformer: exactly the rewrite of the admitted message, with targets and three entries. */
  ghost predicate Rewritten(k: Wiring, admitted: seq<Transport>, item: Item) {
    && |item.cm.seen| == 3 && item.cm.targets != []
    && exists cm, name :: Fresh(admitted, Item(item.tag, cm)) &&
                          FederationMessages.Transform(k.side, k.broker, name, cm) == Forward(item.cm)
  }

  /** Dropped because the transformer refuses the admitted message. */
  ghost predicate Refused(k: Wiring, admitted: seq<Transport>, item: Item) {
    Fresh(admitted, item) && forall name :: FederationMessages.Transform(k.side, k.broker, name, item.cm).Drop?
  }

  /** Received: every target of an encodable message was attempted, and the message gained one hop. */
  ghost predicate Settled(k: Wiring, admitted: seq<Transport>, r: Receipt) {
    && Rewritten(k, admitted, r.item)
    && (exists name, server :: r.wire == Leaving(r.item.cm, k.identity, name, server))
    && (r.outcomes.Some? ==> |r.outcomes.value| == |r.item.cm.targets|)
  }

  ghost predicate HandsFresh(s: State) {
    && (forall w :: 0 <= w < |s.ingest| && s.ingest[w].Some? ==> Fresh(s.admitted, s.ingest[w].value))
    && (forall i :: 0 <= i < |s.first| ==> Fresh(s.admitted, s.first[i]))
  }

  ghost predicate DroppedRefused(k: Wiring, s: State) {
    forall i :: 0 <= i < |s.dropped| ==> Refused(k, s.admitted, s.dropped[i])
  }

  ghost predicate BehindRewritten(k: Wiring, s: State) {
    && (forall w :: 0 <= w < |s.transform| && s.transform[w].Some? ==> Rewritten(k, s.admitted, s.transform[w].value))
    && (forall i :: 0 <= i < |s.second| ==> Rewritten(k, s.admitted, s.second[i]))
    && (forall w :: 0 <= w < |s.egest| && s.egest[w].Some? ==> Rewritten(k, s.admitted, s.egest[w].value))
  }

  ghost predicate AllSettled(k: Wiring, s: State) {
    forall i :: 0 <= i < |s.received| ==> Settled(k, s.admitted, s.received[i])
  }

  function Sum(rs: seq<Receipt>, f: Receipt -> nat): nat {
    if rs == [] then 0 else Sum(rs[..|rs| - 1], f) + f(rs[|rs| - 1])
  }

  /** What a receipt put on the wire. */
  function TallyOf(r: Receipt): Tally {
    var targets := r.item.cm.targets;
    if r.outcomes.None? || |r.outcomes.value| != |targets| then Tally([], 0)
    else Egest(targets, r.outcomes.value, r.wire, |targets|)
  }

  const FailedOf: Receipt -> nat := (r: Receipt) => TallyOf(r).failed
  const UnencodedOf: Receipt -> nat := (r: Receipt) => if r.outcomes.None? then 1 else 0
  const TargetsOf: Receipt -> nat := (r: Receipt) => if r.outcomes.Some? then |r.item.cm.targets| else 0

  /** All that the receipts put on the wire, in order. */
  function WireOf(rs: seq<Receipt>): seq<(Subject, Transport)> {
    if rs == [] then [] else WireOf(rs[..|rs| - 1]) + TallyOf(rs[|rs| - 1]).sent
  }

  ghost predicate Contents(k: Wiring, s: State) {
    HandsFresh(s) && DroppedRefused(k, s) && BehindRewritten(k, s) && AllSettled(k, s)
  }

  ghost predicate Accounts(k: Wiring, s: State) {
    && |s.first| <= k.firstCapacity && |s.second| <= k.secondCapacity
    && s.noTargets == 0
    && s.errors == s.rejected + |s.dropped| + Sum(s.received, UnencodedOf) + Sum(s.received, FailedOf)
    && s.wire == WireOf(s.received) && s.published == |s.wire|
  }

  ghost predicate Invariant(k: Wiring, s: State) {
    Contents(k, s) && Accounts(k, s)
  }

  lemma TransformRewrites(k: Wiring, admitted: seq<Transport>, item: Item, name: string)
    requires Fresh(admitted, item)
    ensures match FederationMessages.Transform(k.side, k.broker, name, item.cm)
            case Drop => Refused(k, admitted, item)
            case Forward(cm) => Rewritten(k, admitted, Item(item.tag, cm))
  {
    match FederationMessages.Transform(k.side, k.broker, name, item.cm) {
      case Drop =>
      case Forward(cm) =>
        assert Fresh(admitted, Item(item.tag, item.cm));
    }
  }

  lemma AdmittedOnlyGrows(k: Wiring, admitted: seq<Transport>, t: Transport)
    ensures forall item :: Fresh(admitted, item) ==> Fresh(admitted + [t], item)
    ensures forall item :: Rewritten(k, admitted, item) ==> Rewritten(k, admitted + [t], item)
    ensures forall item :: Refused(k, admitted, item) ==> Refused(k, admitted + [t], item)
    ensures forall r :: Settled(k, admitted, r) ==> Settled(k, admitted + [t], r)
  {
  }

  lemma ArriveKeepsContents(k: Wiring, s: State, e: Event, s': State)
    requires e.Arrive? && Contents(k, s) && Next(k, s, e, s')
    ensures Contents(k, s')
  {
    if e.message.Some? {
      AdmittedOnlyGrows(k, s.admitted, e.message.value);
    }
  }

  lemma TransformKeepsContents(k: Wiring, s: State, e: Event, s': State)
    requires e.Transform? && Contents(k, s) && Next(k, s, e, s')
    ensures Contents(k, s')
  {
    TransformRewrites(k, s.admitted, s.first[0], e.name);
  }

  lemma EnqueueKeepsContents(k: Wiring, s: State, e: Event, s': State)
    requires e.Enqueue? && Contents(k, s) && Next(k, s, e, s')
    ensures Contents(k, s')
  {
  }

  lemma HandKeepsContents(k: Wiring, s: State, e: Event, s': State)
    requires e.Hand? && Contents(k, s) && Next(k, s, e, s')
    ensures Contents(k, s')
  {
  }

  lemma FetchKeepsContents(k: Wiring, s: State, e: Event, s': State)
    requires e.Fetch? && Contents(k, s) && Next(k, s, e, s')
    ensures Contents(k, s')
  {
  }

  lemma PublishKeepsContents(k: Wiring, s: State, e: Event, s': State)
    requires e.Publish? && Contents(k, s) && Next(k, s, e, s')
    ensures Contents(k, s')
  {
    var item := s.egest[e.worker].value;
    assert Rewritten(k, s.admitted, item);
    var r := s'.received[|s.received|];
    assert r.wire == Leaving(r.item.cm, k.identity, e.name, e.server);
    assert Settled(k, s.admitted, r);
  }

  lemma NextKeepsAccounts(k: Wiring, s: State, e: Event, s': State)
    requires BehindRewritten(k, s) && Accounts(k, s) && Next(k, s, e, s')
    ensures Accounts(k, s')
  {
    if e.Publish? {
      assert Rewritten(k, s.admitted, s.egest[e.worker].value);
      assert s'.received[..|s'.received| - 1] == s.received;
    }
  }

  lemma NextKeepsInvariant(k: Wiring, s: State, e: Event, s': State)
    requires Invariant(k, s) && Next(k, s, e, s')
    ensures Invariant(k, s')
  {
    NextKeepsAccounts(k, s, e, s');
    match e
    case Arrive(_, _, _, _) => ArriveKeepsContents(k, s, e, s');
    case Enqueue(_) => EnqueueKeepsContents(k, s, e, s');
    case Transform(_, _) => TransformKeepsContents(k, s, e, s');
    case Hand(_) => HandKeepsContents(k, s, e, s');
    case Fetch(_) => FetchKeepsContents(k, s, e, s');
    case Publish(_, _, _, _) => PublishKeepsContents(k, s, e, s');
  }

  // ---------------------------------------------------------------------------------------------------------
  // Every run

  lemma StartedIsEmpty(k: Wiring, i: nat, t: nat, e: nat, tag: nat)
    ensures Invariant(k, Started(i, t, e)) && Occurrences(Started(i, t, e), tag) == 0
  {
    FreeHandsHoldNothing(i, tag);
    FreeHandsHoldNothing(t, tag);
    FreeHandsHoldNothing(e, tag);
  }

  ghost predicate Good(k: Wiring, tag: nat, s: State) {
    Invariant(k, s) && Occurrences(s, tag) == if tag < |s.admitted| then 1 else 0
  }

  lemma NextKeepsGood(k: Wiring, tag: nat, s: State, e: Event, s': State)
    requires Good(k, tag, s) && Next(k, s, e, s')
    ensures Good(k, tag, s')
  {
    NextKeepsInvariant(k, s, e, s');
    NextConserves(k, s, e, s', tag);
  }

  lemma RunKeepsInvariant(k: Wiring, states: seq<State>, events: seq<Event>, n: nat, tag: nat)
    requires IsRun(k, states, events) && n < |states|
    ensures Good(k, tag, states[n])
  {
    forall s | Init(s) ensures Good(k, tag, s) {
      var i, t, e :| s == Started(i, t, e);
      StartedIsEmpty(k, i, t, e, tag);
    }
    forall s, e, s' | Good(k, tag, s) && Next(k, s, e, s') ensures Good(k, tag, s') {
      NextKeepsGood(k, tag, s, e, s');
    }
    Runs.Always(Init, (s, e, s') => Next(k, s, e, s'), s => Good(k, tag, s), states, events, n);
  }

  /** Under every interleaving each admitted message is in exactly one place, and nothing else is anywhere. */
  lemma EveryMessageIsInOnePlace(k: Wiring, states: seq<State>, events: seq<Event>, n: nat, tag: nat)
    requires IsRun(k, states, events) && n < |states|
    ensures Occurrences(states[n], tag) == if tag < |states[n].admitted| then 1 else 0
  {
    RunKeepsInvariant(k, states, events, n, tag);
  }

  /**
   * What egest received is the transformed admitted message with one more hop made of its five-entry trail, every
   * target attempted; what was dropped is what the transformer refuses; egest never sees a message without targets;
   * the channels never exceed their capacity; the error counter is exactly the rejects, drops, encoding failures and
   * failed publishes; and the wire carries exactly what the receipts sent.
   */
  lemma ChainAccounts(k: Wiring, states: seq<State>, events: seq<Event>, n: nat)
    requires IsRun(k, states, events) && n < |states|
    ensures var s := states[n];
      && (forall i :: 0 <= i < |s.received| ==>
            && Settled(k, s.admitted, s.received[i])
            && |s.received[i].wire.hops| == |s.received[i].item.cm.message.hops| + 1)
      && (forall i :: 0 <= i < |s.dropped| ==> Refused(k, s.admitted, s.dropped[i]))
      && s.noTargets == 0 && |s.first| <= k.firstCapacity && |s.second| <= k.secondCapacity
      && s.errors == s.rejected + |s.dropped| + Sum(s.received, UnencodedOf) + Sum(s.received, FailedOf)
      && s.wire == WireOf(s.received)
  {
    RunKeepsInvariant(k, states, events, n, 0);
  }

  /** Every target gets exactly one attempt, published or failed. */
  lemma {:induction false} EgestTriesEach(targets: seq<Subject>, outcomes: seq<bool>, t: Transport, n: nat)
    requires n <= |targets| == |outcomes|
    ensures |Egest(targets, outcomes, t, n).sent| + Egest(targets, outcomes, t, n).failed == n
  {
    if n > 0 {
      EgestTriesEach(targets, outcomes, t, n - 1);
    }
  }

  /** The loop sends what the egest worker sends when attempt `from + i` is accepted as the i'th outcome says. */
  lemma {:induction false} EgestIsTheWorkers(
    accepts: nat -> bool, from: nat, targets: seq<Subject>, outcomes: seq<bool>, t: Transport, n: nat)
    requires n <= |targets| == |outcomes| && forall i :: 0 <= i < n ==> outcomes[i] == accepts(from + i)
    ensures Egest(targets, outcomes, t, n).sent == Delivered(accepts, from, targets[..n], t)
  {
    if n > 0 {
      EgestIsTheWorkers(accepts, from, targets, outcomes, t, n - 1);
      assert targets[..n][..n - 1] == targets[..n - 1];
    }
  }

  lemma {:induction false} AttemptsAddUp(k: Wiring, admitted: seq<Transport>, rs: seq<Receipt>)
    requires forall i :: 0 <= i < |rs| ==> Settled(k, admitted, rs[i])
    ensures |WireOf(rs)| + Sum(rs, FailedOf) == Sum(rs, TargetsOf)
  {
    if rs != [] {
      var r := rs[|rs| - 1];
      AttemptsAddUp(k, admitted, rs[..|rs| - 1]);
      assert Settled(k, admitted, r);
      if r.outcomes.Some? {
        EgestTriesEach(r.item.cm.targets, r.outcomes.value, r.wire, |r.item.cm.targets|);
      }
    }
  }

  /**
   * In every state of every run the published counter and the failed attempts add up to the targets of the encodable
   * messages received, and the counter is the number of messages on the wire.
   */
  lemma PublishedPlusFailed(k: Wiring, states: seq<State>, events: seq<Event>, n: nat)
    requires IsRun(k, states, events) && n < |states|
    ensures var s := states[n];
      && s.published + Sum(s.received, FailedOf) == Sum(s.received, TargetsOf)
      && s.published == |s.wire| && s.wire == WireOf(s.received)
      && s.published + s.errors ==
         Sum(s.received, TargetsOf) + s.rejected + |s.dropped| + Sum(s.received, UnencodedOf)
  {
    RunKeepsInvariant(k, states, events, n, 0);
    AttemptsAddUp(k, states[n].admitted, states[n].received);
  }

  // ---------------------------------------------------------------------------------------------------------
  // The chain drains

  function Weight(hands: seq<Option<Item>>): nat {
    if hands == [] then 0 else Weight(hands[1..]) + if hands[0].Some? then 1 else 0
  }

  /** Steps still to be made by the messages in flight. */
  function Remaining(s: State): nat {
    5 * Weight(s.ingest) + 4 * |s.first| + 3 * Weight(s.transform) + 2 * |s.second| + Weight(s.egest)
  }

  lemma {:induction false} WeightUpdate(hands: seq<Option<Item>>, w: nat, h: Option<Item>)
    requires w < |hands|
    ensures Weight(hands[w := h]) + (if hands[w].Some? then 1 else 0) == Weight(hands) + (if h.Some? then 1 else 0)
  {
    var after := hands[w := h];
    if w == 0 {
      assert after[1..] == hands[1..];
    } else {
      WeightUpdate(hands[1..], w - 1, h);
      assert after[1..] == hands[1..][w - 1 := h];
    }
  }

  /** Every step except an arrival brings the messages in flight closer to the end. */
  lemma StepsDrain(k: Wiring, s: State, e: Event, s': State)
    requires Next(k, s, e, s') && !e.Arrive?
    ensures Remaining(s') < Remaining(s)
  {
    match e
    case Enqueue(w) => WeightUpdate(s.ingest, w, None);
    case Transform(w, _) =>
      WeightUpdate(s.transform, w, s'.transform[w]);
      assert s'.transform == s.transform[w := s'.transform[w]];
    case Hand(w) => WeightUpdate(s.transform, w, None);
    case Fetch(w) => WeightUpdate(s.egest, w, Some(s.second[0]));
    case Publish(w, _, _, _) => WeightUpdate(s.egest, w, None);
  }

  lemma {:induction false} SomeHand(hands: seq<Option<Item>>) returns (w: nat)
    requires Weight(hands) > 0
    ensures Holding(hands, w)
  {
    if hands[0].Some? {
      w := 0;
    } else {
      w := SomeHand(hands[1..]);
      w := w + 1;
    }
  }

  lemma {:induction false} AllIdle(hands: seq<Option<Item>>, w: nat)
    requires Weight(hands) == 0 && w < |hands|
    ensures Idle(hands, w)
  {
    if w > 0 {
      AllIdle(hands[1..], w - 1);
    }
  }

  /** The chain never blocks: with a worker in each pool and room in each channel, anything in flight can move. */
  lemma NeverStuck(k: Wiring, s: State) returns (e: Event)
    requires |s.transform| > 0 && |s.egest| > 0 && k.firstCapacity > 0 && k.secondCapacity > 0
    requires Remaining(s) > 0
    ensures !e.Arrive? && Enabled(k, s, e)
  {
    if Weight(s.egest) > 0 {
      var w := SomeHand(s.egest);
      e := Publish(w, "", "", None);
    } else if s.second != [] {
      e := Fetch(0);
      AllIdle(s.egest, 0);
    } else if Weight(s.transform) > 0 {
      var w := SomeHand(s.transform);
      e := Hand(w);
    } else if s.first != [] {
      e := Transform(0, "");
      AllIdle(s.transform, 0);
    } else {
      var w := SomeHand(s.ingest);
      e := Enqueue(w);
    }
  }
}
