// What the granted permissions come to, subject by subject: every subject that a client, a server, a provisioning node
// or a plain pub-sub user may publish or subscribe to, spelled out in tokens (broker/network/choria_auth.go).
module GrantedSubjects {
  import opened Options
  import opened Subjects
  import opened Permissions
  import opened ServerPermissionRules

  /** At least one token below a prefix. */
  predicate Under(prefix: Subject, s: Subject) {
    |s| > |prefix| && s[..|prefix|] == prefix
  }

  predicate OneUnder(prefix: Subject, s: Subject) {
    |s| == |prefix| + 1 && s[..|prefix|] == prefix
  }

  // ---------------------------------------------------------------------------------------------------------
  // Lists of patterns

  lemma AnyOfMore(ps: seq<Pattern>, p: Pattern, s: Subject)
    ensures AnyMatches(ps + [p], s) <==> AnyMatches(ps, s) || Matches(p, s)
  {
    AnyMatchesConcat(ps, [p], s);
    AnyOfOne(p, s);
  }

  lemma AnyOfThree(ps: seq<Pattern>, s: Subject)
    requires |ps| == 3
    ensures AnyMatches(ps, s) <==> Matches(ps[0], s) || Matches(ps[1], s) || Matches(ps[2], s)
  {
    assert ps == [ps[0], ps[1]] + [ps[2]];
    AnyOfTwo(ps[0], ps[1], s);
    AnyOfMore([ps[0], ps[1]], ps[2], s);
  }

  lemma AnyOfFour(ps: seq<Pattern>, s: Subject)
    requires |ps| == 4
    ensures AnyMatches(ps, s) <==> Matches(ps[0], s) || Matches(ps[1], s) || Matches(ps[2], s) || Matches(ps[3], s)
  {
    assert ps == ps[..3] + [ps[3]];
    AnyOfThree(ps[..3], s);
    AnyOfMore(ps[..3], ps[3], s);
  }

  lemma AnyBelow(prefix: Pattern, rests: seq<Pattern>, s: Subject)
    requires |prefix| == 2 && prefix[0].Is? && prefix[1].Is? && forall r :: r in rests ==> r != []
    ensures AnyMatches(Below(prefix, rests), s) <==>
      |s| >= 2 && s[0] == prefix[0].token && s[1] == prefix[1].token && AnyMatches(rests, s[2..])
  {
    assert forall i :: 0 <= i < |rests| ==> rests[i] in rests;
    forall i | 0 <= i < |rests|
      ensures Matches(Below(prefix, rests)[i], s) <==>
        |s| >= 2 && s[0] == prefix[0].token && s[1] == prefix[1].token && Matches(rests[i], s[2..])
    {
      OneBelow(prefix, rests[i], s);
    }
    if AnyMatches(Below(prefix, rests), s) {
      var i :| 0 <= i < |rests| && Matches(Below(prefix, rests)[i], s);
      assert rests[i] in rests;
    }
    if |s| >= 2 && AnyMatches(rests, s[2..]) {
      var i :| 0 <= i < |rests| && Matches(rests[i], s[2..]);
      assert Below(prefix, rests)[i] in Below(prefix, rests);
    }
  }

  lemma OneBelow(prefix: Pattern, rest: Pattern, s: Subject)
    requires |prefix| == 2 && prefix[0].Is? && prefix[1].Is? && rest != []
    ensures Matches(prefix + rest, s) <==>
      |s| >= 2 && s[0] == prefix[0].token && s[1] == prefix[1].token && Matches(rest, s[2..])
  {
    var p := prefix + rest;
    if Matches(p, s) {
      assert Covers(p[0], s[0]) && Covers(p[1], s[1]);
      forall i | 0 <= i < |rest| && (IsMulti(rest) ==> i < |rest| - 1) ensures Covers(rest[i], s[2..][i]) {
        assert Covers(p[i + 2], s[i + 2]);
      }
    }
    if |s| >= 2 && s[0] == prefix[0].token && s[1] == prefix[1].token && Matches(rest, s[2..]) {
      forall i | 0 <= i < |p| && (IsMulti(p) ==> i < |p| - 1) ensures Covers(p[i], s[i]) {
        assert i >= 2 ==> Covers(rest[i - 2], s[2..][i - 2]);
      }
    }
  }

  /** Literal tokens, then some `*`, then perhaps a `>`. */
  lemma WildMatches(p: Pattern, prefix: Subject, stars: nat, rest: bool, s: Subject)
    requires |p| == |prefix| + stars + (if rest then 1 else 0) && prefix != []
    requires forall i :: 0 <= i < |prefix| ==> p[i] == Is(prefix[i])
    requires forall i :: |prefix| <= i < |prefix| + stars ==> p[i] == Star
    requires rest ==> p[|prefix| + stars] == Rest
    ensures Matches(p, s) <==>
      && (if rest then |s| > |prefix| + stars else |s| == |prefix| + stars)
      && s[..|prefix|] == prefix
  {
    if Matches(p, s) {
      forall i | 0 <= i < |prefix| ensures s[i] == prefix[i] {
        assert Covers(p[i], s[i]);
      }
    }
  }

  // ---------------------------------------------------------------------------------------------------------
  // JetStream calls

  /** The calls of a server, after the prefix of the API. */
  predicate IsServerCall(k: Subject) {
    || (|k| == 3 && k[..2] == ["STREAM", "INFO"])
    || (|k| == 4 && (k[..3] == ["STREAM", "MSG", "GET"] || k[..3] == ["STREAM", "MSG", "DELETE"]))
    || (|k| >= 3 && (k[..2] == ["DIRECT", "GET"] || k[..2] == ["CONSUMER", "CREATE"]))
    || (|k| == 5 && (k[..3] == ["CONSUMER", "DURABLE", "CREATE"] || k[..3] == ["CONSUMER", "MSG", "NEXT"]))
    || (|k| == 4 && k[..2] == ["CONSUMER", "INFO"])
  }

  /** The further calls of a streams user: it also lists streams, and lists and deletes consumers. */
  predicate IsUserCall(k: Subject) {
    || IsServerCall(k)
    || k == ["INFO"] || k == ["STREAM", "NAMES"] || k == ["STREAM", "LIST"]
    || (|k| == 4 && k[..2] == ["CONSUMER", "DELETE"])
    || (|k| == 3 && (k[..2] == ["CONSUMER", "NAMES"] || k[..2] == ["CONSUMER", "LIST"]))
  }

  lemma FirstServerCalls(k: Subject)
    ensures AnyMatches(ServerCalls[..3], k) <==>
      || (|k| == 3 && k[..2] == ["STREAM", "INFO"])
      || (|k| == 4 && (k[..3] == ["STREAM", "MSG", "GET"] || k[..3] == ["STREAM", "MSG", "DELETE"]))
  {
    hide Matches;
    var ps := ServerCalls[..3];
    AnyOfThree(ps, k);
    WildMatches(ps[0], ["STREAM", "INFO"], 1, false, k);
    WildMatches(ps[1], ["STREAM", "MSG", "GET"], 1, false, k);
    WildMatches(ps[2], ["STREAM", "MSG", "DELETE"], 1, false, k);
  }

  lemma NextServerCalls(k: Subject)
    ensures AnyMatches(ServerCalls[3..7], k) <==>
      |k| >= 3 && (k[..2] == ["DIRECT", "GET"] || k[..2] == ["CONSUMER", "CREATE"])
  {
    hide Matches;
    var ps := ServerCalls[3..7];
    AnyOfFour(ps, k);
    WildMatches(ps[0], ["DIRECT", "GET"], 1, false, k);
    WildMatches(ps[1], ["DIRECT", "GET"], 1, true, k);
    WildMatches(ps[2], ["CONSUMER", "CREATE"], 1, false, k);
    WildMatches(ps[3], ["CONSUMER", "CREATE"], 1, true, k);
  }

  lemma LastServerCalls(k: Subject)
    ensures AnyMatches(ServerCalls[7..], k) <==>
      || (|k| == 5 && (k[..3] == ["CONSUMER", "DURABLE", "CREATE"] || k[..3] == ["CONSUMER", "MSG", "NEXT"]))
      || (|k| == 4 && k[..2] == ["CONSUMER", "INFO"])
  {
    hide Matches;
    var ps := ServerCalls[7..];
    AnyOfThree(ps, k);
    WildMatches(ps[0], ["CONSUMER", "DURABLE", "CREATE"], 2, false, k);
    WildMatches(ps[1], ["CONSUMER", "INFO"], 2, false, k);
    WildMatches(ps[2], ["CONSUMER", "MSG", "NEXT"], 2, false, k);
  }

  lemma ServerCallsExactly(k: Subject)
    ensures AnyMatches(ServerCalls, k) <==> IsServerCall(k)
  {
    hide AnyMatches;
    var ps := ServerCalls;
    SplitInThree(ps, 3, 7, k);
    FirstServerCalls(k);
    NextServerCalls(k);
    LastServerCalls(k);
  }

  lemma SplitInThree(ps: seq<Pattern>, i: nat, j: nat, s: Subject)
    requires i <= j <= |ps|
    ensures AnyMatches(ps, s) <==> AnyMatches(ps[..i], s) || AnyMatches(ps[i..j], s) || AnyMatches(ps[j..], s)
  {
    assert ps == ps[..i] + ps[i..j] + ps[j..];
    AnyMatchesConcat(ps[..i] + ps[i..j], ps[j..], s);
    AnyMatchesConcat(ps[..i], ps[i..j], s);
  }

  lemma FirstUserCalls(k: Subject)
    ensures AnyMatches(StreamsUserCalls[..3], k) <==>
      k == ["INFO"] || k == ["STREAM", "NAMES"] || k == ["STREAM", "LIST"]
  {
    hide Matches;
    var ps := StreamsUserCalls[..3];
    AnyOfThree(ps, k);
    WildMatches(ps[0], ["INFO"], 0, false, k);
    WildMatches(ps[1], ["STREAM", "NAMES"], 0, false, k);
    WildMatches(ps[2], ["STREAM", "LIST"], 0, false, k);
  }

  lemma MiddleUserCalls(k: Subject)
    ensures AnyMatches(StreamsUserCalls[10..13], k) <==>
      || (|k| == 5 && k[..3] == ["CONSUMER", "DURABLE", "CREATE"])
      || (|k| == 4 && k[..2] == ["CONSUMER", "DELETE"])
      || (|k| == 3 && k[..2] == ["CONSUMER", "NAMES"])
  {
    hide Matches;
    var ps := StreamsUserCalls[10..13];
    AnyOfThree(ps, k);
    WildMatches(ps[0], ["CONSUMER", "DURABLE", "CREATE"], 2, false, k);
    WildMatches(ps[1], ["CONSUMER", "DELETE"], 2, false, k);
    WildMatches(ps[2], ["CONSUMER", "NAMES"], 1, false, k);
  }

  lemma LastUserCalls(k: Subject)
    ensures AnyMatches(StreamsUserCalls[13..], k) <==>
      || (|k| == 3 && k[..2] == ["CONSUMER", "LIST"])
      || (|k| == 4 && k[..2] == ["CONSUMER", "INFO"])
      || (|k| == 5 && k[..3] == ["CONSUMER", "MSG", "NEXT"])
  {
    hide Matches;
    var ps := StreamsUserCalls[13..];
    AnyOfThree(ps, k);
    WildMatches(ps[0], ["CONSUMER", "LIST"], 1, false, k);
    WildMatches(ps[1], ["CONSUMER", "INFO"], 2, false, k);
    WildMatches(ps[2], ["CONSUMER", "MSG", "NEXT"], 2, false, k);
  }

  lemma SharedCalls()
    ensures StreamsUserCalls[3..6] == ServerCalls[..3] && StreamsUserCalls[6..10] == ServerCalls[3..7]
  {
    assert forall i :: 0 <= i < 3 ==> StreamsUserCalls[3 + i] == ServerCalls[i];
    assert forall i :: 3 <= i < 7 ==> StreamsUserCalls[3 + i] == ServerCalls[i];
  }

  lemma UserCallsExactly(k: Subject)
    ensures AnyMatches(StreamsUserCalls, k) <==> IsUserCall(k)
  {
    hide AnyMatches;
    var ps := StreamsUserCalls;
    SplitInThree(ps, 3, 10, k);
    SplitInThree(ps[3..10], 0, 3, k);
    SplitInThree(ps[10..], 0, 3, k);
    assert ps[3..10][0..0] == [] && ps[3..10][0..3] == ps[3..6] && ps[3..10][3..] == ps[6..10];
    assert ps[10..][0..0] == [] && ps[10..][0..3] == ps[10..13] && ps[10..][3..] == ps[13..];
    assert ps[3..10][..0] == [] && ps[10..][..0] == [];
    NothingMatches(k);
    SharedCalls();
    FirstUserCalls(k);
    FirstServerCalls(k);
    NextServerCalls(k);
    MiddleUserCalls(k);
    LastUserCalls(k);
  }

  // ---------------------------------------------------------------------------------------------------------
  // Servers

  /** A permission of a server token; a token without a permission record has none. */
  function PermissionsOf(claims: ServerClaims): ServerPermissions {
    if claims.permissions.Some? then claims.permissions.value else ServerPermissions(false, false, false, false)
  }

  /** The JetStream subjects of a server: its calls below the prefix of its organization, and acknowledgements. */
  predicate IsServerStreamSubject(org: Token, s: Subject) {
    || (Under(if org == "choria" then ["$JS", "API"] else ["choria", "streams"], s) && IsServerCall(s[2..]))
    || Under(["$JS", "ACK"], s) || Under(["$JS", "FC"], s)
  }

  /** What one collective of its token lets a server publish. */
  predicate IsPublishableIn(p: ServerPermissions, c: Token, s: Subject) {
    || Under([c, "reply"], s)
    || s == [c, "broadcast", "agent", "registration"]
    || s == ["choria", "federation", c, "collective"]
    || (p.submission && Under([c, "submission", "in"], s))
    || (p.governor && p.streams && OneUnder([c, "governor"], s))
  }

  lemma BaseExactly(s: Subject)
    ensures AnyMatches(ServerBasePublish, s) <==>
      || Under(["choria", "lifecycle"], s) || s == ["choria", "machine", "transition"]
      || Under(["choria", "machine", "watcher"], s)
  {
    hide Matches;
    var ps := ServerBasePublish;
    AnyOfThree(ps, s);
    WildMatches(ps[0], ["choria", "lifecycle"], 0, true, s);
    WildMatches(ps[1], ["choria", "machine", "transition"], 0, false, s);
    WildMatches(ps[2], ["choria", "machine", "watcher"], 0, true, s);
  }

  lemma BasicExactly(ps: seq<Pattern>, c: Token, s: Subject)
    requires ps == [[Is(c), Is("reply"), Rest], [Is(c), Is("broadcast"), Is("agent"), Is("registration")],
                    [Is("choria"), Is("federation"), Is(c), Is("collective")]]
    ensures AnyMatches(ps, s) <==>
      || Under([c, "reply"], s) || s == [c, "broadcast", "agent", "registration"]
      || s == ["choria", "federation", c, "collective"]
  {
    hide Matches;
    AnyOfThree(ps, s);
    WildMatches(ps[0], [c, "reply"], 0, true, s);
    WildMatches(ps[1], [c, "broadcast", "agent", "registration"], 0, false, s);
    WildMatches(ps[2], ["choria", "federation", c, "collective"], 0, false, s);
  }

  lemma PublishInExactly(claims: ServerClaims, c: Token, s: Subject)
    ensures AnyMatches(PublishIn(claims, c), s) <==> IsPublishableIn(PermissionsOf(claims), c, s)
  {
    hide Matches;
    var ps := PublishIn(claims, c);
    var submit: Pattern := [Is(c), Is("submission"), Is("in"), Rest];
    var govern: Pattern := [Is(c), Is("governor"), Star];
    BasicExactly(ps[..3], c, s);
    WildMatches(submit, [c, "submission", "in"], 0, true, s);
    WildMatches(govern, [c, "governor"], 1, false, s);
    var p := PermissionsOf(claims);
    AnyWhen(p.submission, submit, s);
    AnyWhen(p.governor && p.streams, govern, s);
    assert ps == ps[..3] + When(p.submission, submit) + When(p.governor && p.streams, govern);
    AnyMatchesConcat(ps[..3] + When(p.submission, submit), When(p.governor && p.streams, govern), s);
    AnyMatchesConcat(ps[..3], When(p.submission, submit), s);
  }

  lemma StreamsPublishExactly(claims: ServerClaims, s: Subject)
    ensures AnyMatches(StreamsPublish(claims), s) <==>
      PermissionsOf(claims).streams && IsServerStreamSubject(claims.org, s)
  {
    hide Matches, IsServerCall;
    var prefix := ApiPrefix(claims.org);
    var ack: Pattern, fc: Pattern := [Is("$JS"), Is("ACK"), Rest], [Is("$JS"), Is("FC"), Rest];
    CallsAreNotEmpty();
    AnyBelow(prefix, ServerCalls, s);
    AnyMatchesConcat(Below(prefix, ServerCalls), [ack, fc], s);
    AnyOfTwo(ack, fc, s);
    WildMatches(ack, ["$JS", "ACK"], 0, true, s);
    WildMatches(fc, ["$JS", "FC"], 0, true, s);
    if |s| >= 2 {
      ServerCallsExactly(s[2..]);
      if |s| == 2 {
        EmptyIsNoCall(s[2..]);
      }
    }
  }

  lemma CallsAreNotEmpty()
    ensures forall r :: r in ServerCalls || r in StreamsUserCalls ==> r != []
  {
  }

  lemma EmptyIsNoCall(k: Subject)
    requires k == []
    ensures !IsUserCall(k)
  {
  }

  /**
   * Everything a server may publish, whatever its token: what the token lists, its lifecycle and machine events, what
   * each of its collectives gives it, and with the streams claim the JetStream subjects of its organization. A token
   * without collectives may publish nothing.
   */
  lemma ServerMayPublishExactly(claims: ServerClaims, s: Subject)
    requires s != []
    ensures Permits(ServerPublish(claims), s) <==>
      && claims.collectives != []
      && (|| AnyMatches(claims.additionalPublish, s)
          || Under(["choria", "lifecycle"], s) || s == ["choria", "machine", "transition"]
          || Under(["choria", "machine", "watcher"], s)
          || (exists c :: c in claims.collectives && IsPublishableIn(PermissionsOf(claims), c, s))
          || (PermissionsOf(claims).streams && IsServerStreamSubject(claims.org, s)))
  {
    hide IsPublishableIn, IsServerStreamSubject, Under, PublishIn, StreamsPublish;
    ServerPublishLanguage(claims, s);
    BaseExactly(s);
    StreamsPublishExactly(claims, s);
    forall c | c in claims.collectives {
      PublishInExactly(claims, c, s);
    }
  }

  /** The submission claim, and nothing else but the token itself, opens the submission subjects of a collective. */
  lemma SubmissionExactly(claims: ServerClaims, c: Token, rest: Subject)
    requires rest != []
    ensures Permits(ServerPublish(claims), [c, "submission", "in"] + rest) <==>
      || (c in claims.collectives && claims.permissions.Some? && claims.permissions.value.submission)
      || (claims.collectives != [] && AnyMatches(claims.additionalPublish, [c, "submission", "in"] + rest))
  {
    var s := [c, "submission", "in"] + rest;
    ServerMayPublishExactly(claims, s);
    assert s[..3] == [c, "submission", "in"] && s[..2] == [c, "submission"] && s[1] == "submission";
    forall d ensures IsPublishableIn(PermissionsOf(claims), d, s) <==> PermissionsOf(claims).submission && d == c {
      assert [d, "reply"][1] == "reply" && [d, "governor"][1] == "governor" && [d, "submission", "in"][0] == d;
    }
    AvoidsStreams(claims.org, s);
  }

  lemma AvoidsStreams(org: Token, s: Subject)
    requires |s| >= 2 && s[1] !in ["API", "streams", "ACK", "FC"]
    ensures !IsServerStreamSubject(org, s)
  {
    assert ["$JS", "API"][1] == "API" && ["choria", "streams"][1] == "streams";
    assert ["$JS", "ACK"][1] == "ACK" && ["$JS", "FC"][1] == "FC";
  }

  /** The governor subjects of a collective need the streams and the governor claim together. */
  lemma GovernorExactly(claims: ServerClaims, c: Token, name: Token)
    ensures Permits(ServerPublish(claims), [c, "governor", name]) <==>
      || (&& c in claims.collectives && claims.permissions.Some?
          && claims.permissions.value.governor && claims.permissions.value.streams)
      || (claims.collectives != [] && AnyMatches(claims.additionalPublish, [c, "governor", name]))
  {
    var s := [c, "governor", name];
    ServerMayPublishExactly(claims, s);
    assert s[..2] == [c, "governor"];
    forall d ensures IsPublishableIn(PermissionsOf(claims), d, s) <==>
      PermissionsOf(claims).governor && PermissionsOf(claims).streams && d == c
    {
      assert [d, "reply"][1] == "reply" && [d, "governor"][0] == d;
    }
    AvoidsStreams(claims.org, s);
  }

  /** The JetStream API is open to servers with the streams claim below the prefix of their organization only. */
  lemma ServerCallsAreOpenExactly(claims: ServerClaims, prefix: Subject, call: Subject)
    requires prefix == ["$JS", "API"] || prefix == ["choria", "streams"]
    requires call != []
    ensures Permits(ServerPublish(claims), prefix + call) <==>
      && claims.collectives != []
      && (|| AnyMatches(claims.additionalPublish, prefix + call)
          || (&& claims.permissions.Some? && claims.permissions.value.streams && IsServerCall(call)
              && (claims.org == "choria" <==> prefix == ["$JS", "API"])))
  {
    hide IsServerCall;
    var s := prefix + call;
    ServerMayPublishExactly(claims, s);
    assert s[..2] == prefix && s[2..] == call;
    assert ["$JS", "API"][1] == "API" && ["choria", "streams"][1] == "streams";
    forall d ensures !IsPublishableIn(PermissionsOf(claims), d, s) {
      assert [d, "reply"][1] == "reply" && [d, "governor"][1] == "governor";
      assert [d, "submission", "in"][1] == "submission";
    }
    assert ["$JS", "ACK"][1] == "ACK" && ["$JS", "FC"][1] == "FC";
  }

  /** The digests of its own name that the broker lets a caller or a server listen for replies with. */
  predicate IsOwnDigest(b: Broker, name: string, digest: Token) {
    digest == b.digests.sha256(name) || (!b.fips && digest == b.digests.md5(name))
  }

  /** The text of an identity: its tokens with dots in between. */
  lemma {:induction false} JoinIsDotted(a: Subject, b: Subject)
    requires a != [] && b != []
    ensures Join(a + b) == Join(a) + "." + Join(b) && (|a| == 1 ==> Join(a) == a[0])
  {
    assert (a + b)[1..] == a[1..] + b;
    if |a| > 1 {
      JoinIsDotted(a[1..], b);
    } else {
      assert a[1..] + b == b;
    }
  }

  /** What one collective of its token lets a server subscribe to. */
  predicate IsAudibleIn(b: Broker, claims: ServerClaims, c: Token, s: Subject) {
    || Under([c, "broadcast", "agent"], s)
    || s == [c, "node"] + claims.identity
    || (|s| >= 4 && s[..2] == [c, "reply"] && IsOwnDigest(b, Join(claims.identity), s[2]))
    || (PermissionsOf(claims).serviceHost && Under([c, "broadcast", "service"], s))
  }

  lemma ReplyPatternMatches(p: Pattern, c: Token, digest: Token, s: Subject)
    requires p == [Is(c), Is("reply"), Is(digest), Rest]
    ensures Matches(p, s) <==> |s| >= 4 && s[..2] == [c, "reply"] && s[2] == digest
  {
    WildMatches(p, [c, "reply", digest], 0, true, s);
    if |s| >= 3 {
      assert s[..3] == s[..2] + [s[2]];
      assert [c, "reply", digest] == [c, "reply"] + [digest];
    }
  }

  lemma OwnRepliesExactly(b: Broker, claims: ServerClaims, c: Token, name: string, s: Subject)
    ensures AnyMatches(OwnReplyPatterns(b, claims, c, name), s) <==>
      |s| >= 4 && s[..2] == [c, "reply"] && IsOwnDigest(b, name, s[2])
  {
    hide Matches;
    var ps := OwnReplyPatterns(b, claims, c, name);
    if b.fips {
      assert ps == [ps[0]];
      AnyOfOne(ps[0], s);
      ReplyPatternMatches(ps[0], c, b.digests.sha256(name), s);
    } else {
      AnyOfTwo(ps[0], ps[1], s);
      ReplyPatternMatches(ps[0], c, b.digests.md5(name), s);
      ReplyPatternMatches(ps[1], c, b.digests.sha256(name), s);
    }
  }

  lemma SubscribeInExactly(b: Broker, claims: ServerClaims, c: Token, s: Subject)
    ensures AnyMatches(SubscribeIn(b, claims, c), s) <==> IsAudibleIn(b, claims, c, s)
  {
    hide Matches, OwnReplyPatterns;
    var ps := SubscribeIn(b, claims, c);
    var agents: Pattern, node := [Is(c), Is("broadcast"), Is("agent"), Rest], Literal([c, "node"] + claims.identity);
    var services: Pattern := [Is(c), Is("broadcast"), Is("service"), Rest];
    var replies := OwnReplyPatterns(b, claims, c, Join(claims.identity));
    var hosts := PermissionsOf(claims).serviceHost;
    assert ps == [agents, node] + replies + When(hosts, services);
    AnyMatchesConcat([agents, node] + replies, When(hosts, services), s);
    AnyMatchesConcat([agents, node], replies, s);
    AnyOfTwo(agents, node, s);
    WildMatches(agents, [c, "broadcast", "agent"], 0, true, s);
    LiteralMatches([c, "node"] + claims.identity, s);
    OwnRepliesExactly(b, claims, c, Join(claims.identity), s);
    AnyWhen(hosts, services, s);
    WildMatches(services, [c, "broadcast", "service"], 0, true, s);
  }

  /** Everything a server may subscribe to, whatever its token. */
  lemma ServerMaySubscribeExactly(b: Broker, claims: ServerClaims, s: Subject)
    requires s != []
    ensures Permits(ServerSubscribe(b, claims), s) <==>
      || (exists c :: c in claims.collectives && IsAudibleIn(b, claims, c, s))
      || (claims.collectives != [] && PermissionsOf(claims).streams && Under([claims.org, "republish"], s))
  {
    hide IsAudibleIn, SubscribeIn;
    AllSubjectsMatchAny(s);
    var cs := claims.collectives;
    if cs != [] {
      var all := Gather([], Subscribes(b, claims), cs);
      var republish: Pattern := [Is(claims.org), Is("republish"), Rest];
      GatherLanguage([], Subscribes(b, claims), cs, s);
      AnyMatchesConcat(all, When(MayStream(claims), republish), s);
      AnyWhen(MayStream(claims), republish, s);
      WildMatches(republish, [claims.org, "republish"], 0, true, s);
      forall c | c in cs {
        SubscribeInExactly(b, claims, c, s);
      }
      assert all != [] by {
        SubscribeListIsNotEmpty(b, claims, cs);
      }
    }
  }

  // ---------------------------------------------------------------------------------------------------------
  // The fixed sets

  /** What requests travel on, in any collective and any federation. */
  predicate CarriesRequests(s: Subject) {
    || (|s| >= 4 && s[1] == "broadcast" && (s[2] == "agent" || s[2] == "service"))
    || (|s| >= 3 && s[1] == "node")
    || (|s| == 4 && s[..2] == ["choria", "federation"] && s[3] == "federation")
  }

  lemma RequestPatternsExactly(ps: seq<Pattern>, s: Subject)
    requires ps == FleetManagementPermissions.pubs
    ensures AnyMatches(ps, s) <==> CarriesRequests(s)
  {
    AnyOfFour(ps, s);
    assert Matches(ps[0], s) <==> |s| >= 4 && s[1] == "broadcast" && s[2] == "agent";
    assert Matches(ps[1], s) <==> |s| >= 4 && s[1] == "broadcast" && s[2] == "service";
    assert Matches(ps[2], s) <==> |s| >= 3 && s[1] == "node";
    assert Matches(ps[3], s) <==> |s| == 4 && s[0] == "choria" && s[1] == "federation" && s[3] == "federation";
    assert |s| >= 2 ==> (s[..2] == ["choria", "federation"] <==> s[0] == "choria" && s[1] == "federation");
  }

  /** A server without token may publish all but requests, and hear all but replies, federations and events. */
  lemma DefaultServerExactly(s: Subject)
    requires s != []
    ensures Permits(DefaultServerPublish, s) <==> !CarriesRequests(s)
    ensures Permits(DefaultServerSubscribe, s) <==>
      !(|s| >= 3 && s[1] == "reply") && !Under(["choria", "federation"], s) && !Under(["choria", "lifecycle"], s)
  {
    AllSubjectsMatchAny(s);
    assert DefaultServerPublish.deny == FleetManagementPermissions.pubs;
    RequestPatternsExactly(DefaultServerPublish.deny, s);
    var ps := DefaultServerSubscribe.deny;
    AnyOfThree(ps, s);
    assert Matches(ps[0], s) <==> |s| >= 3 && s[1] == "reply";
    WildMatches(ps[1], ["choria", "federation"], 0, true, s);
    WildMatches(ps[2], ["choria", "lifecycle"], 0, true, s);
  }

  lemma SecondTokenMatches(p: Pattern, t: Token, s: Subject)
    requires p == [Star, Is(t), Rest]
    ensures Matches(p, s) <==> |s| >= 3 && s[1] == t
  {
  }

  /** A plain pub-sub user may use all but the subjects of the fleet. */
  lemma PubSubExactly(s: Subject)
    requires s != []
    ensures Permits(PubSub, s) <==>
      && !(|s| >= 3 && (s[1] == "broadcast" || s[1] == "node" || s[1] == "reply"))
      && !Under(["choria", "federation"], s) && !Under(["choria", "lifecycle"], s) && !Under(["choria", "machine"], s)
  {
    hide Matches;
    AllSubjectsMatchAny(s);
    var ps := PubSub.deny;
    assert ps == ps[..3] + ps[3..];
    AnyMatchesConcat(ps[..3], ps[3..], s);
    AnyOfThree(ps[..3], s);
    AnyOfThree(ps[3..], s);
    SecondTokenMatches(ps[0], "broadcast", s);
    SecondTokenMatches(ps[1], "node", s);
    SecondTokenMatches(ps[2], "reply", s);
    WildMatches(ps[3], ["choria", "federation"], 0, true, s);
    WildMatches(ps[4], ["choria", "lifecycle"], 0, true, s);
    WildMatches(ps[5], ["choria", "machine"], 0, true, s);
  }

  /** A provisioning node tells its events, replies and registers, and hears its node subject and four agents. */
  lemma ProvisioningExactly(s: Subject)
    ensures Permits(ProvisioningPublish, s) <==>
      || Under(["choria", "lifecycle"], s) || Under(["provisioning", "reply"], s)
      || Under(["provisioning", "registration"], s)
    ensures Permits(ProvisioningSubscribe, s) <==>
      || Under(["provisioning", "node"], s)
      || (&& OneUnder(["provisioning", "broadcast", "agent"], s)
          && (s[3] == "discovery" || s[3] == "rpcutil" || s[3] == "choria_util" || s[3] == "choria_provision"))
  {
    ProvisioningPublishExactly(s);
    ProvisioningAgentsExactly(s);
    var ps := ProvisioningSubscribe.allow;
    assert ps == [ps[0]] + ps[1..];
    AnyMatchesConcat([ps[0]], ps[1..], s);
    AnyOfOne(ps[0], s);
    WildMatches(ps[0], ["provisioning", "node"], 0, true, s);
  }

  lemma ProvisioningPublishExactly(s: Subject)
    ensures AnyMatches(ProvisioningPublish.allow, s) <==>
      || Under(["choria", "lifecycle"], s) || Under(["provisioning", "reply"], s)
      || Under(["provisioning", "registration"], s)
  {
    var ps := ProvisioningPublish.allow;
    AnyOfThree(ps, s);
    WildMatches(ps[0], ["choria", "lifecycle"], 0, true, s);
    WildMatches(ps[1], ["provisioning", "reply"], 0, true, s);
    WildMatches(ps[2], ["provisioning", "registration"], 0, true, s);
  }

  lemma ProvisioningAgentsExactly(s: Subject)
    ensures AnyMatches(ProvisioningSubscribe.allow[1..], s) <==>
      && OneUnder(["provisioning", "broadcast", "agent"], s)
      && (s[3] == "discovery" || s[3] == "rpcutil" || s[3] == "choria_util" || s[3] == "choria_provision")
  {
    hide Matches;
    var ps := ProvisioningSubscribe.allow[1..];
    AnyOfFour(ps, s);
    AgentPatternMatches(ps[0], "discovery", s);
    AgentPatternMatches(ps[1], "rpcutil", s);
    AgentPatternMatches(ps[2], "choria_util", s);
    AgentPatternMatches(ps[3], "choria_provision", s);
  }

  lemma AgentPatternMatches(p: Pattern, agent: Token, s: Subject)
    requires p == [Is("provisioning"), Is("broadcast"), Is("agent"), Is(agent)]
    ensures Matches(p, s) <==> OneUnder(["provisioning", "broadcast", "agent"], s) && s[3] == agent
  {
    LiteralMatches(["provisioning", "broadcast", "agent"] + [agent], s);
    assert p == Literal(["provisioning", "broadcast", "agent"] + [agent]);
    if |s| == 4 {
      assert s == s[..3] + [s[3]];
    }
  }

  // ---------------------------------------------------------------------------------------------------------
  // Clients

  /** The permission record of a client token; without one no claim is made. */
  function ClaimsOf(client: Option<ClientClaims>): ClientPermissions {
    if client.Some? && client.value.permissions.Some? then client.value.permissions.value
    else ClientPermissions(false, false, false, false, false, false, false, false, false, false)
  }

  const LeaderElection := "CHORIA_LEADER_ELECTION"

  /** What the claims of a client open for publishing in the account of the fleet. */
  predicate IsOpenInFleet(p: ClientPermissions, s: Subject) {
    || (p.streamsAdmin && Under(["$JS"], s))
    || (p.streamsUser && ((Under(["$JS", "API"], s) && IsUserCall(s[2..]))
        || Under(["$JS", "ACK"], s) || Under(["$JS", "FC"], s) || Under(["$KV"], s) || Under(["$O"], s)))
    || (p.electionUser && (s == ["$JS", "API", "STREAM", "INFO", "KV_" + LeaderElection]
        || Under(["$KV", LeaderElection], s)))
    || (p.governor && (p.streamsUser || p.streamsAdmin) && ((|s| == 3 && s[1] == "governor")
        || Under(["choria", "lifecycle", "event", "governor"], s)))
  }

  /** What they open in the account of the provisioner: one election. */
  predicate IsOpenToProvisioner(p: ClientPermissions, s: Subject) {
    p.electionUser && (s == ["choria", "streams", "STREAM", "INFO", "KV_" + LeaderElection]
      || s == ["$KV", LeaderElection, "provisioner"])
  }

  lemma UserCallsBelowExactly(s: Subject)
    ensures AnyMatches(Below([Is("$JS"), Is("API")], StreamsUserCalls), s) <==>
      Under(["$JS", "API"], s) && IsUserCall(s[2..])
  {
    hide Matches, IsUserCall;
    CallsAreNotEmpty();
    AnyBelow([Is("$JS"), Is("API")], StreamsUserCalls, s);
    if |s| >= 2 {
      assert s[..2] == ["$JS", "API"] <==> s[0] == "$JS" && s[1] == "API";
      UserCallsExactly(s[2..]);
      if |s| == 2 {
        EmptyIsNoCall(s[2..]);
      }
    }
  }

  lemma UserOthersExactly(ps: seq<Pattern>, s: Subject)
    requires ps == [[Is("$JS"), Is("ACK"), Rest], [Is("$JS"), Is("FC"), Rest], [Is("$KV"), Rest], [Is("$O"), Rest]]
    ensures AnyMatches(ps, s) <==>
      Under(["$JS", "ACK"], s) || Under(["$JS", "FC"], s) || Under(["$KV"], s) || Under(["$O"], s)
  {
    hide Matches;
    AnyOfFour(ps, s);
    WildMatches(ps[0], ["$JS", "ACK"], 0, true, s);
    WildMatches(ps[1], ["$JS", "FC"], 0, true, s);
    WildMatches(ps[2], ["$KV"], 0, true, s);
    WildMatches(ps[3], ["$O"], 0, true, s);
  }

  lemma StreamsUserExactly(b: Broker, user: Account, org: Token, s: Subject)
    ensures AnyMatches(StreamsUserPermissions(b, user, org).pubs, s) <==>
      && user == b.accounts.choria
      && ((Under(["$JS", "API"], s) && IsUserCall(s[2..]))
          || Under(["$JS", "ACK"], s) || Under(["$JS", "FC"], s) || Under(["$KV"], s) || Under(["$O"], s))
    ensures AnyMatches(StreamsUserPermissions(b, user, org).subs, s) <==>
      user == b.accounts.choria && Under([org, "republish"], s)
  {
    hide Matches, AnyMatches, IsUserCall, Under, Below;
    NothingMatches(s);
    if user == b.accounts.choria {
      var calls := Below([Is("$JS"), Is("API")], StreamsUserCalls);
      var others := [[Is("$JS"), Is("ACK"), Rest], [Is("$JS"), Is("FC"), Rest], [Is("$KV"), Rest], [Is("$O"), Rest]];
      AnyMatchesConcat(calls, others, s);
      UserCallsBelowExactly(s);
      UserOthersExactly(others, s);
      RepublishMatches([Is(org), Is("republish"), Rest], org, s);
    }
  }

  lemma RepublishMatches(p: Pattern, org: Token, s: Subject)
    requires p == [Is(org), Is("republish"), Rest]
    ensures AnyMatches([p], s) <==> Under([org, "republish"], s)
  {
    AnyOfOne(p, s);
    WildMatches(p, [org, "republish"], 0, true, s);
  }

  lemma StreamsAdminExactly(b: Broker, user: Account, s: Subject)
    ensures AnyMatches(StreamsAdminPermissions(b, user).pubs, s) <==> user == b.accounts.choria && Under(["$JS"], s)
    ensures AnyMatches(StreamsAdminPermissions(b, user).subs, s) <==>
      user == b.accounts.choria && Under(["$JS", "EVENT"], s)
  {
    hide Matches;
    var pub: Pattern, sub: Pattern := [Is("$JS"), Rest], [Is("$JS"), Is("EVENT"), Rest];
    AnyOfOne(pub, s);
    AnyOfOne(sub, s);
    WildMatches(pub, ["$JS"], 0, true, s);
    WildMatches(sub, ["$JS", "EVENT"], 0, true, s);
  }

  lemma ElectionInFleetExactly(b: Broker, user: Account, s: Subject)
    requires user == b.accounts.choria
    ensures AnyMatches(ElectionPermissions(b, user).pubs, s) <==>
      s == ["$JS", "API", "STREAM", "INFO", "KV_" + LeaderElection] || Under(["$KV", LeaderElection], s)
  {
    hide Matches;
    var ps := ElectionPermissions(b, user).pubs;
    assert "KV_" + LeaderElection == "KV_CHORIA_LEADER_ELECTION";
    AnyOfTwo(ps[0], ps[1], s);
    WildMatches(ps[0], ["$JS", "API", "STREAM", "INFO", "KV_" + LeaderElection], 0, false, s);
    WildMatches(ps[1], ["$KV", LeaderElection], 0, true, s);
  }

  lemma ElectionElsewhereExactly(b: Broker, user: Account, s: Subject)
    requires user != b.accounts.choria
    ensures AnyMatches(ElectionPermissions(b, user).pubs, s) <==>
      && user == b.accounts.provisioning
      && (s == ["choria", "streams", "STREAM", "INFO", "KV_" + LeaderElection]
          || s == ["$KV", LeaderElection, "provisioner"])
  {
    hide Matches;
    var ps := ElectionPermissions(b, user).pubs;
    assert "KV_" + LeaderElection == "KV_CHORIA_LEADER_ELECTION";
    if user == b.accounts.provisioning {
      AnyOfTwo(ps[0], ps[1], s);
      WildMatches(ps[0], ["choria", "streams", "STREAM", "INFO", "KV_" + LeaderElection], 0, false, s);
      WildMatches(ps[1], ["$KV", LeaderElection, "provisioner"], 0, false, s);
    }
  }

  lemma GovernorLanguage(b: Broker, user: Account, s: Subject)
    ensures AnyMatches(GovernorPermissions(b, user).pubs, s) <==>
      && user == b.accounts.choria
      && ((|s| == 3 && s[1] == "governor") || Under(["choria", "lifecycle", "event", "governor"], s))
  {
    if user == b.accounts.choria {
      var ps := GovernorPermissions(b, user).pubs;
      AnyOfTwo(ps[0], ps[1], s);
      assert Matches(ps[0], s) <==> |s| == 3 && s[1] == "governor";
      WildMatches(ps[1], ["choria", "lifecycle", "event", "governor"], 0, true, s);
    }
  }

  lemma EventsExactly(b: Broker, user: Account, s: Subject)
    ensures AnyMatches(EventsViewerPermissions(b, user).subs, s) <==>
      || (user == b.accounts.choria && (Under(["choria", "lifecycle", "event"], s)
          || Under(["choria", "machine", "watcher"], s) || s == ["choria", "machine", "transition"]))
      || (&& user == b.accounts.provisioning && user != b.accounts.choria
          && |s| == 5 && s[..3] == ["choria", "lifecycle", "event"] && s[4] == "provision_mode_server")
  {
    var ps := EventsViewerPermissions(b, user).subs;
    if user == b.accounts.choria {
      AnyOfThree(ps, s);
      WildMatches(ps[0], ["choria", "lifecycle", "event"], 0, true, s);
      WildMatches(ps[1], ["choria", "machine", "watcher"], 0, true, s);
      WildMatches(ps[2], ["choria", "machine", "transition"], 0, false, s);
    } else if user == b.accounts.provisioning {
      AnyOfOne(ps[0], s);
      ModeEventMatches(ps[0], s);
    }
  }

  lemma ModeEventMatches(p: Pattern, s: Subject)
    requires p == [Is("choria"), Is("lifecycle"), Is("event"), Star, Is("provision_mode_server")]
    ensures Matches(p, s) <==>
      |s| == 5 && s[..3] == ["choria", "lifecycle", "event"] && s[4] == "provision_mode_server"
  {
    if |s| == 5 {
      assert s[..3] == ["choria", "lifecycle", "event"] <==>
        s[0] == "choria" && s[1] == "lifecycle" && s[2] == "event";
      assert Matches(p, s) <==> forall i :: 0 <= i < 5 ==> Covers(p[i], s[i]);
      assert Matches(p, s) <==>
        Covers(p[0], s[0]) && Covers(p[1], s[1]) && Covers(p[2], s[2]) && Covers(p[3], s[3]) && Covers(p[4], s[4]);
    }
  }

  /**
   * Everything a client may publish: all of it as an organization admin; otherwise what its token lists, the request
   * for its own user information, what its claims open in its account, and requests if it manages the fleet.
   */
  lemma ClientMayPublishExactly(b: Broker, user: Account, caller: string, client: Option<ClientClaims>, s: Subject)
    requires s != []
    ensures Permits(ClientPublish(b, user, caller, client), s) <==>
      var p := ClaimsOf(client);
      || p.orgAdmin
      || (client.Some? && AnyMatches(client.value.additionalPublish, s))
      || s == ["$SYS", "REQ", "USER", "INFO"]
      || (user == b.accounts.choria && IsOpenInFleet(p, s))
      || (user == b.accounts.provisioning && user != b.accounts.choria && IsOpenToProvisioner(p, s))
      || ((p.fleetManagement || p.signedFleetManagement) && CarriesRequests(s))
  {
    hide Matches, IsUserCall, Under;
    ClientIsNeverUnrestricted(b, user, caller, client);
    if IsOrgAdmin(client) {
      AllSubjectsMatchAny(s);
    } else {
      var m := MinimalClientPermissions(b, caller);
      AnyMatchesConcat(m.pubs, ExtraPublish(client), s);
      AnyOfOne(m.pubs[0], s);
      WildMatches(m.pubs[0], ["$SYS", "REQ", "USER", "INFO"], 0, false, s);
      NothingMatches(s);
      if client.Some? && client.value.permissions.Some? {
        var p, l := client.value.permissions.value, m.Append(Lists(ExtraSubscribe(client), ExtraPublish(client)));
        GrantClaimsLanguage(b, user, client.value.org, p, l, s);
        ClaimedPublishExactly(b, user, client.value.org, p, s);
      }
    }
  }

  lemma ClaimedPublishExactly(b: Broker, user: Account, org: Token, p: ClientPermissions, s: Subject)
    ensures
      || (p.streamsAdmin && AnyMatches(StreamsAdminPermissions(b, user).pubs, s))
      || (p.streamsUser && AnyMatches(StreamsUserPermissions(b, user, org).pubs, s))
      || (p.eventsViewer && AnyMatches(EventsViewerPermissions(b, user).pubs, s))
      || (p.electionUser && AnyMatches(ElectionPermissions(b, user).pubs, s))
      || (p.governor && (p.streamsUser || p.streamsAdmin) && AnyMatches(GovernorPermissions(b, user).pubs, s))
      || ((p.fleetManagement || p.signedFleetManagement) && AnyMatches(FleetManagementPermissions.pubs, s))
      <==>
      || (user == b.accounts.choria && IsOpenInFleet(p, s))
      || (user == b.accounts.provisioning && user != b.accounts.choria && IsOpenToProvisioner(p, s))
      || ((p.fleetManagement || p.signedFleetManagement) && CarriesRequests(s))
  {
    hide Matches, IsUserCall, Under, CarriesRequests, StreamsAdminPermissions, StreamsUserPermissions;
    hide ElectionPermissions, GovernorPermissions;
    StreamsAdminExactly(b, user, s);
    StreamsUserExactly(b, user, org, s);
    if user == b.accounts.choria {
      ElectionInFleetExactly(b, user, s);
    } else {
      ElectionElsewhereExactly(b, user, s);
    }
    GovernorLanguage(b, user, s);
    RequestPatternsExactly(FleetManagementPermissions.pubs, s);
    NothingMatches(s);
    assert EventsViewerPermissions(b, user).pubs == [];
  }

  /** What the claims of a client let it subscribe to in its account. */
  predicate IsAudibleTo(b: Broker, user: Account, org: Token, p: ClientPermissions, s: Subject) {
    || (user == b.accounts.choria && p.streamsAdmin && Under(["$JS", "EVENT"], s))
    || (user == b.accounts.choria && p.streamsUser && Under([org, "republish"], s))
    || (user == b.accounts.choria && p.eventsViewer && (Under(["choria", "lifecycle", "event"], s)
        || Under(["choria", "machine", "watcher"], s) || s == ["choria", "machine", "transition"]))
    || (&& user == b.accounts.provisioning && user != b.accounts.choria && p.eventsViewer
        && |s| == 5 && s[..3] == ["choria", "lifecycle", "event"] && s[4] == "provision_mode_server")
  }

  lemma ClaimedSubscribeExactly(b: Broker, user: Account, org: Token, p: ClientPermissions, s: Subject)
    ensures
      || (p.streamsAdmin && AnyMatches(StreamsAdminPermissions(b, user).subs, s))
      || (p.streamsUser && AnyMatches(StreamsUserPermissions(b, user, org).subs, s))
      || (p.eventsViewer && AnyMatches(EventsViewerPermissions(b, user).subs, s))
      || (p.electionUser && AnyMatches(ElectionPermissions(b, user).subs, s))
      || (p.governor && (p.streamsUser || p.streamsAdmin) && AnyMatches(GovernorPermissions(b, user).subs, s))
      || ((p.fleetManagement || p.signedFleetManagement) && AnyMatches(FleetManagementPermissions.subs, s))
      <==> IsAudibleTo(b, user, org, p, s)
  {
    hide Matches, Under, StreamsAdminPermissions, StreamsUserPermissions, EventsViewerPermissions;
    StreamsAdminExactly(b, user, s);
    StreamsUserExactly(b, user, org, s);
    EventsExactly(b, user, s);
    NothingMatches(s);
    assert ElectionPermissions(b, user).subs == [] && GovernorPermissions(b, user).subs == [];
    assert FleetManagementPermissions.subs == [];
  }

  lemma ClientRepliesExactly(b: Broker, caller: string, s: Subject)
    ensures AnyMatches(MinimalClientPermissions(b, caller).subs, s) <==>
      if caller == "" then |s| >= 3 && s[1] == "reply"
      else |s| >= 4 && s[1] == "reply" && IsOwnDigest(b, caller, s[2])
  {
    var ps := MinimalClientPermissions(b, caller).subs;
    if caller == "" {
      AnyOfOne(ps[0], s);
      SecondTokenMatches(ps[0], "reply", s);
    } else if b.fips {
      assert ps == [ps[0]];
      AnyOfOne(ps[0], s);
      AnyReplyMatches(ps[0], b.digests.sha256(caller), s);
    } else {
      assert ps == [ps[0], ps[1]];
      AnyOfTwo(ps[0], ps[1], s);
      AnyReplyMatches(ps[0], b.digests.md5(caller), s);
      AnyReplyMatches(ps[1], b.digests.sha256(caller), s);
    }
  }

  lemma AnyReplyMatches(p: Pattern, digest: Token, s: Subject)
    requires p == [Star, Is("reply"), Is(digest), Rest]
    ensures Matches(p, s) <==> |s| >= 4 && s[1] == "reply" && s[2] == digest
  {
  }

  /** Everything a client may subscribe to, whatever its token. */
  lemma ClientMaySubscribeExactly(b: Broker, user: Account, caller: string, client: Option<ClientClaims>, s: Subject)
    requires s != []
    ensures Permits(ClientSubscribe(b, user, caller, client), s) <==>
      || ClaimsOf(client).orgAdmin
      || (client.Some? && AnyMatches(client.value.additionalSubscribe, s))
      || (caller == "" && |s| >= 3 && s[1] == "reply")
      || (caller != "" && |s| >= 4 && s[1] == "reply" && IsOwnDigest(b, caller, s[2]))
      || (client.Some? && IsAudibleTo(b, user, client.value.org, ClaimsOf(client), s))
  {
    hide Matches, Under;
    ClientIsNeverUnrestricted(b, user, caller, client);
    if IsOrgAdmin(client) {
      AllSubjectsMatchAny(s);
    } else {
      var m := MinimalClientPermissions(b, caller);
      AnyMatchesConcat(m.subs, ExtraSubscribe(client), s);
      ClientRepliesExactly(b, caller, s);
      NothingMatches(s);
      if client.Some? && client.value.permissions.Some? {
        var p, l := client.value.permissions.value, m.Append(Lists(ExtraSubscribe(client), ExtraPublish(client)));
        GrantClaimsLanguage(b, user, client.value.org, p, l, s);
        ClaimedSubscribeExactly(b, user, client.value.org, p, s);
      }
    }
  }
}
