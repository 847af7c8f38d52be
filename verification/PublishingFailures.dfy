// What reaches the nodes of a federation when attempts to publish fail (choria/connection.go, broker/federation).
module PublishingFailures {
  import opened Subjects
  import opened FederationMessages
  import opened Publishing

  // ---------------------------------------------------------------------------------------------------------
  // Subsequences

  /** Whether `a` is what is left of `b` when some of its elements are taken out. */
  predicate Within<T(==)>(a: seq<T>, b: seq<T>) {
    if b == [] then a == []
    else
      || Within(a, b[..|b| - 1])
      || (a != [] && a[|a| - 1] == b[|b| - 1] && Within(a[..|a| - 1], b[..|b| - 1]))
  }

  lemma {:induction false} NothingIsWithin<T>(b: seq<T>)
    ensures Within([], b)
  {
    if b != [] {
      NothingIsWithin(b[..|b| - 1]);
    }
  }

  lemma {:induction false} IsWithinItself<T>(a: seq<T>)
    ensures Within(a, a)
  {
    if a != [] {
      IsWithinItself(a[..|a| - 1]);
    }
  }

  lemma {:induction false} WithinConcat<T>(a: seq<T>, b: seq<T>, c: seq<T>, d: seq<T>)
    requires Within(a, b) && Within(c, d)
    ensures Within(a + c, b + d)
    decreases |d|
  {
    if d == [] {
      assert a + c == a && b + d == b;
    } else {
      var d' := d[..|d| - 1];
      assert (b + d)[..|b + d| - 1] == b + d';
      if Within(c, d') {
        WithinConcat(a, b, c, d');
      } else {
        WithinConcat(a, b, c[..|c| - 1], d');
        assert (a + c)[..|a + c| - 1] == a + c[..|c| - 1];
      }
    }
  }

  lemma {:induction false} FlattenSnoc<T>(s: seq<seq<T>>, x: seq<T>)
    ensures Flatten(s + [x]) == Flatten(s) + x
  {
    if s == [] {
      assert s + [x] == [x] && Flatten([x]) == x + Flatten([x][1..]);
    } else {
      FlattenSnoc(s[1..], x);
      assert (s + [x])[1..] == s[1..] + [x];
    }
  }

  // ---------------------------------------------------------------------------------------------------------
  // The batches that arrive

  /** The batches that reach the federation at index `i`: publishing each batch stops at its first failure. */
  function Arrived(
    accepts: nat -> bool, federations: seq<Token>, i: nat, t: Transport, requestId: Token, batches: seq<seq<Subject>>)
    : seq<seq<Subject>>
  {
    if batches == [] then []
    else
      var n := |batches| - 1;
      var before := PublishBatches(accepts, federations, t, requestId, batches[..n], Progress([], 0, false));
      Arrived(accepts, federations, i, t, requestId, batches[..n])
      + if i < Reached(accepts, before.attempts, |federations|) then [batches[n]] else []
  }

  lemma {:induction false} ReceivedIsArrived(
    accepts: nat -> bool, federations: seq<Token>, i: nat, t: Transport, requestId: Token, batches: seq<seq<Subject>>)
    requires Distinct(federations) && i < |federations|
    ensures
      var p := PublishBatches(accepts, federations, t, requestId, batches, Progress([], 0, false));
      SentTo(p.sent, FederationTarget(federations[i], "federation"))
      == AddressedAll(t, requestId, Arrived(accepts, federations, i, t, requestId, batches))
  {
    hide Copies, Addressed, FederationTarget;
    if batches != [] {
      var n, f := |batches| - 1, federations[i];
      var before := PublishBatches(accepts, federations, t, requestId, batches[..n], Progress([], 0, false));
      var m, reached := Addressed(t, requestId, batches[n]), Reached(accepts, before.attempts, |federations|);
      ReceivedIsArrived(accepts, federations, i, t, requestId, batches[..n]);
      OneCopyEach(federations, reached, m, f);
      assert f in federations[..reached] <==> i < reached by {
        if i < reached {
          assert federations[..reached][i] == f;
        }
      }
      SentToConcat(before.sent, Copies(federations, reached, m), FederationTarget(f, "federation"));
    }
  }

  lemma {:induction false} ArrivedIsWithin(
    accepts: nat -> bool, federations: seq<Token>, i: nat, t: Transport, requestId: Token, batches: seq<seq<Subject>>)
    ensures Within(Flatten(Arrived(accepts, federations, i, t, requestId, batches)), Flatten(batches))
  {
    hide PublishBatches, Reached, Within;
    var arrived := Arrived(accepts, federations, i, t, requestId, batches);
    if batches == [] {
      IsWithinItself(Flatten(batches));
    } else {
      var n := |batches| - 1;
      var earlier := Arrived(accepts, federations, i, t, requestId, batches[..n]);
      ArrivedIsWithin(accepts, federations, i, t, requestId, batches[..n]);
      FlattenSnoc(batches[..n], batches[n]);
      assert batches == batches[..n] + [batches[n]];
      if arrived == earlier + [batches[n]] {
        FlattenSnoc(earlier, batches[n]);
        IsWithinItself(batches[n]);
        WithinConcat(Flatten(earlier), Flatten(batches[..n]), batches[n], batches[n]);
      } else {
        assert arrived == earlier;
        NothingIsWithin(batches[n]);
        WithinConcat(Flatten(earlier), Flatten(batches[..n]), [], batches[n]);
        assert Flatten(earlier) + [] == Flatten(earlier);
      }
    }
  }

  /** A batch addresses the first of its nodes. */
  lemma {:induction false} UntilBlankIsPrefix(names: seq<Subject>, padding: nat)
    ensures UntilBlank(names + Blanks(padding)) <= names
  {
    var all := names + Blanks(padding);
    if names == [] {
      assert padding > 0 ==> all[0] == [];
    } else {
      UntilBlankIsPrefix(names[1..], padding);
      assert all[0] == names[0] && all[1..] == names[1..] + Blanks(padding);
    }
  }

  lemma BatchIsWithin(collective: Token, names: seq<Subject>, padding: nat)
    ensures Within(BatchTargets(collective, names + Blanks(padding)), NodeTargets(collective, names))
  {
    var kept := UntilBlank(names + Blanks(padding));
    UntilBlankIsPrefix(names, padding);
    var first, rest := NodeTargets(collective, kept), NodeTargets(collective, names[|kept|..]);
    IsWithinItself(first);
    NothingIsWithin(rest);
    WithinConcat(first, first, [], rest);
    assert first + [] == first && NodeTargets(collective, names) == first + rest;
  }

  lemma {:induction false} BatchesAreWithin(collective: Token, hosts: seq<Subject>)
    ensures Within(Flatten(Batches(collective, hosts)), NodeTargets(collective, hosts))
  {
    hide Within, BatchTargets;
    if |hosts| > GroupSize {
      var first, rest := hosts[..GroupSize], hosts[GroupSize..];
      BatchesAreWithin(collective, rest);
      BatchesUnfold(collective, hosts);
      BatchIsWithin(collective, first, 0);
      assert first + Blanks(0) == first;
      assert Batches(collective, hosts)[1..] == Batches(collective, rest);
      assert NodeTargets(collective, hosts) == NodeTargets(collective, first) + NodeTargets(collective, rest);
      WithinConcat(BatchTargets(collective, first), NodeTargets(collective, first),
                   Flatten(Batches(collective, rest)), NodeTargets(collective, rest));
    } else if hosts != [] {
      var batch := BatchTargets(collective, hosts + Blanks(GroupSize - |hosts|));
      BatchIsWithin(collective, hosts, GroupSize - |hosts|);
      assert Batches(collective, hosts) == [batch] && Flatten([batch]) == batch + Flatten([batch][1..]) == batch;
    } else {
      IsWithinItself(NodeTargets(collective, hosts));
    }
  }

  lemma {:induction false} WithinIsTransitive<T>(a: seq<T>, b: seq<T>, c: seq<T>)
    requires Within(a, b) && Within(b, c)
    ensures Within(a, c)
    decreases |c|
  {
    if c != [] {
      var c' := c[..|c| - 1];
      if Within(b, c') {
        WithinIsTransitive(a, b, c');
      } else if Within(a, b[..|b| - 1]) {
        WithinIsTransitive(a, b[..|b| - 1], c');
      } else {
        WithinIsTransitive(a[..|a| - 1], b[..|b| - 1], c');
      }
    }
  }

  /**
   * Whatever attempts fail and whatever hosts are blank, the broker of a federation publishes the payload to the
   * subjects of the batches that arrived, and these are direct publishing's with some left out: none is new, none
   * comes twice for one host, and the order stays.
   */
  lemma FailuresOnlyOmit(
    accepts: nat -> bool, federations: seq<Token>, i: nat, t: Transport, requestId: Token, collective: Token,
    hosts: seq<Subject>)
    requires Distinct(federations) && i < |federations| && t.replyTo != []
    ensures
      var p := PublishBatches(accepts, federations, t, requestId, Batches(collective, hosts), Progress([], 0, false));
      var received := SentTo(p.sent, FederationTarget(federations[i], "federation"));
      var reached := Flatten(Arrived(accepts, federations, i, t, requestId, Batches(collective, hosts)));
      && BrokerPublishesAll(federations[i], received) == PayloadToEach(reached, t.payload)
      && Within(reached, NodeTargets(collective, hosts))
  {
    hide Within, PublishBatches, SentTo, Arrived, AddressedAll, BrokerPublishesAll, Flatten, Batches, NodeTargets;
    var batches := Batches(collective, hosts);
    var arrived := Arrived(accepts, federations, i, t, requestId, batches);
    ReceivedIsArrived(accepts, federations, i, t, requestId, batches);
    TransitOfBatches(federations[i], t, requestId, arrived);
    ArrivedIsWithin(accepts, federations, i, t, requestId, batches);
    BatchesAreWithin(collective, hosts);
    WithinIsTransitive(Flatten(arrived), Flatten(batches), NodeTargets(collective, hosts));
  }

  // ---------------------------------------------------------------------------------------------------------
  // When no error means that every host was reached

  /** A federation that misses the first batch makes less of the message. */
  lemma {:induction false} FirstBatchIsMissed(
    accepts: nat -> bool, federations: seq<Token>, i: nat, t: Transport, requestId: Token, batches: seq<seq<Subject>>)
    requires batches != [] && Reached(accepts, 0, |federations|) <= i
    ensures |Flatten(Arrived(accepts, federations, i, t, requestId, batches))| + |batches[0]| <= |Flatten(batches)|
  {
    hide PublishBatches, Reached;
    var n := |batches| - 1;
    assert batches == batches[..n] + [batches[n]];
    FlattenSnoc(batches[..n], batches[n]);
    var earlier := Arrived(accepts, federations, i, t, requestId, batches[..n]);
    FlattenSnoc(earlier, batches[n]);
    if n == 0 {
      NothingSentYet(accepts, federations, t, requestId);
      assert batches[..n] == [];
    } else {
      FirstBatchIsMissed(accepts, federations, i, t, requestId, batches[..n]);
      assert batches[..n][0] == batches[0];
      var arrived := Arrived(accepts, federations, i, t, requestId, batches);
      assert arrived == earlier || arrived == earlier + [batches[n]];
    }
  }

  lemma NothingSentYet(accepts: nat -> bool, federations: seq<Token>, t: Transport, requestId: Token)
    ensures PublishBatches(accepts, federations, t, requestId, [], Progress([], 0, false)).attempts == 0
  {
  }

  /** The nodes of a federation receive exactly what direct publishing sends. */
  predicate ReachesAll(
    accepts: nat -> bool, federations: seq<Token>, i: nat, t: Transport, requestId: Token, collective: Token,
    hosts: seq<Subject>)
    requires i < |federations|
  {
    var p := PublishBatches(accepts, federations, t, requestId, Batches(collective, hosts), Progress([], 0, false));
    BrokerPublishesAll(federations[i], SentTo(p.sent, FederationTarget(federations[i], "federation")))
    == PayloadToEach(NodeTargets(collective, hosts), t.payload)
  }

  predicate IsSilent(
    accepts: nat -> bool, federations: seq<Token>, t: Transport, requestId: Token, collective: Token,
    hosts: seq<Subject>)
  {
    !PublishBatches(accepts, federations, t, requestId, Batches(collective, hosts), Progress([], 0, false)).err
  }

  lemma OneBatchReachesAll(
    accepts: nat -> bool, federations: seq<Token>, i: nat, t: Transport, requestId: Token, collective: Token,
    hosts: seq<Subject>)
    requires Distinct(federations) && i < |federations| && t.replyTo != []
    requires |hosts| <= GroupSize && NoBlanks(hosts) && IsSilent(accepts, federations, t, requestId, collective, hosts)
    ensures ReachesAll(accepts, federations, i, t, requestId, collective, hosts)
  {
    hide NodeTargets, SentTo, BrokerPublishesAll;
    var batches := Batches(collective, hosts);
    BatchShape(collective, hosts);
    if |batches| == 1 {
      assert batches[..0] == [] && batches == [batches[0]];
    }
    assert Arrived(accepts, federations, i, t, requestId, batches) == batches;
    FailuresOnlyOmit(accepts, federations, i, t, requestId, collective, hosts);
    BatchesAddressTheSameNodes(collective, hosts);
  }

  lemma FirstFailureMissesHosts(
    federations: seq<Token>, i: nat, t: Transport, requestId: Token, collective: Token, hosts: seq<Subject>)
    requires Distinct(federations) && i < |federations| && t.replyTo != [] && |hosts| > GroupSize && NoBlanks(hosts)
    ensures IsSilent(n => n != 0, federations, t, requestId, collective, hosts)
    ensures !ReachesAll(n => n != 0, federations, i, t, requestId, collective, hosts)
  {
    hide NodeTargets, SentTo, BrokerPublishesAll, PublishBatches, Arrived;
    var accepts: nat -> bool := n => n != 0;
    var batches := Batches(collective, hosts);
    BatchShape(collective, hosts);
    FirstFailureIsForgotten(federations, t, requestId, batches);
    FirstBatchIsMissed(accepts, federations, i, t, requestId, batches);
    FailuresOnlyOmit(accepts, federations, i, t, requestId, collective, hosts);
    BatchesAddressTheSameNodes(collective, hosts);
    var reached := Flatten(Arrived(accepts, federations, i, t, requestId, batches));
    assert |PayloadToEach(reached, t.payload)| < |PayloadToEach(NodeTargets(collective, hosts), t.payload)|;
  }

  lemma BlankHostsAreMissed(
    federations: seq<Token>, i: nat, t: Transport, requestId: Token, collective: Token, hosts: seq<Subject>)
    requires Distinct(federations) && i < |federations| && t.replyTo != [] && !NoBlanks(hosts)
    ensures IsSilent(n => true, federations, t, requestId, collective, hosts)
    ensures !ReachesAll(n => true, federations, i, t, requestId, collective, hosts)
  {
    hide NodeTargets, SentTo, BrokerPublishesAll, PublishBatches, Batches, NoBlanks;
    var accepts: nat -> bool := n => true;
    FederationReceivesEveryBatch(accepts, federations, t, requestId, Batches(collective, hosts), federations[i]);
    FederatedRefinesDirect(accepts, federations, t, requestId, collective, hosts, federations[i]);
  }

  /**
   * "No error" means that the nodes of each federation received exactly what direct publishing sends, whatever
   * attempts fail, if and only if there are at most 200 hosts and none is blank.
   */
  lemma SilenceReachesAllExactly(
    federations: seq<Token>, i: nat, t: Transport, requestId: Token, collective: Token, hosts: seq<Subject>)
    requires Distinct(federations) && i < |federations| && t.replyTo != []
    ensures
      (forall accepts: nat -> bool :: IsSilent(accepts, federations, t, requestId, collective, hosts) ==>
         ReachesAll(accepts, federations, i, t, requestId, collective, hosts))
      <==> |hosts| <= GroupSize && NoBlanks(hosts)
  {
    hide IsSilent, ReachesAll, NoBlanks;
    if !NoBlanks(hosts) {
      BlankHostsAreMissed(federations, i, t, requestId, collective, hosts);
    } else if |hosts| > GroupSize {
      FirstFailureMissesHosts(federations, i, t, requestId, collective, hosts);
    } else {
      forall accepts: nat -> bool | IsSilent(accepts, federations, t, requestId, collective, hosts)
        ensures ReachesAll(accepts, federations, i, t, requestId, collective, hosts)
      {
        OneBatchReachesAll(accepts, federations, i, t, requestId, collective, hosts);
      }
    }
  }
}
