// The subject permissions the network broker grants (broker/network/choria_auth.go), and what they mean for the
// subjects the connector derives (choria/connection.go).
module Permissions {
  import opened Options
  import opened Subjects

  /** A *server.Account: nil or a named account. */
  datatype Account = NoAccount | Account(name: string)

  datatype Accounts = Accounts(choria: Account, system: Account, provisioning: Account)

  datatype ClientPermissions = ClientPermissions(
    orgAdmin: bool, systemUser: bool, serverProvisioner: bool, streamsAdmin: bool, streamsUser: bool,
    eventsViewer: bool, electionUser: bool, governor: bool, fleetManagement: bool, signedFleetManagement: bool)

  datatype ClientClaims = ClientClaims(
    callerId: string, publicKey: string, org: Token, permissions: Option<ClientPermissions>,
    additionalPublish: seq<Pattern>, additionalSubscribe: seq<Pattern>)

  datatype ServerPermissions = ServerPermissions(serviceHost: bool, submission: bool, governor: bool, streams: bool)

  datatype ServerClaims = ServerClaims(
    identity: Subject, publicKey: string, org: Token, collectives: seq<Token>,
    permissions: Option<ServerPermissions>, additionalPublish: seq<Pattern>)

  /** The broker settings that permission setting reads. */
  datatype Broker = Broker(accounts: Accounts, denyServers: bool, fips: bool, digests: Digests)

  /** The subscribe and publish allow lists, or what one helper appends to them. */
  datatype Lists = Lists(subs: seq<Pattern>, pubs: seq<Pattern>) {
    function Append(more: Lists): Lists {
      Lists(subs + more.subs, pubs + more.pubs)
    }

    function AppendIf(granted: bool, more: Lists): Lists {
      if granted then Append(more) else this
    }
  }

  const Nothing := Lists([], [])

  // ---------------------------------------------------------------------------------------------------------
  // Clients

  function ReplyPatterns(digests: seq<Token>): seq<Pattern> {
    seq(|digests|, i requires 0 <= i < |digests| => [Star, Is("reply"), Is(digests[i]), Rest])
  }

  function MinimalClientPermissions(b: Broker, caller: string): Lists {
    Lists(
      if caller == "" then [[Star, Is("reply"), Rest]] else ReplyPatterns(GrantedDigests(b.digests, b.fips, caller)),
      [[Is("$SYS"), Is("REQ"), Is("USER"), Is("INFO")]])
  }

  const FleetManagementPermissions := Lists([], [
    [Star, Is("broadcast"), Is("agent"), Rest],
    [Star, Is("broadcast"), Is("service"), Rest],
    [Star, Is("node"), Rest],
    [Is("choria"), Is("federation"), Star, Is("federation")]])

  function StreamsAdminPermissions(b: Broker, user: Account): Lists {
    if user != b.accounts.choria then Nothing
    else Lists([[Is("$JS"), Is("EVENT"), Rest]], [[Is("$JS"), Rest]])
  }

  /** Patterns below a common prefix. */
  function Below(prefix: Pattern, rests: seq<Pattern>): seq<Pattern> {
    seq(|rests|, i requires 0 <= i < |rests| => prefix + rests[i])
  }

  /** The JetStream calls a streams user may make, below `$JS.API`. */
  const StreamsUserCalls: seq<Pattern> := [
    [Is("INFO")],
    [Is("STREAM"), Is("NAMES")],
    [Is("STREAM"), Is("LIST")],
    [Is("STREAM"), Is("INFO"), Star],
    [Is("STREAM"), Is("MSG"), Is("GET"), Star],
    [Is("STREAM"), Is("MSG"), Is("DELETE"), Star],
    [Is("DIRECT"), Is("GET"), Star],
    [Is("DIRECT"), Is("GET"), Star, Rest],
    [Is("CONSUMER"), Is("CREATE"), Star],
    [Is("CONSUMER"), Is("CREATE"), Star, Rest],
    [Is("CONSUMER"), Is("DURABLE"), Is("CREATE"), Star, Star],
    [Is("CONSUMER"), Is("DELETE"), Star, Star],
    [Is("CONSUMER"), Is("NAMES"), Star],
    [Is("CONSUMER"), Is("LIST"), Star],
    [Is("CONSUMER"), Is("INFO"), Star, Star],
    [Is("CONSUMER"), Is("MSG"), Is("NEXT"), Star, Star]]

  function StreamsUserPermissions(b: Broker, user: Account, org: Token): Lists {
    if user != b.accounts.choria then Nothing
    else Lists([[Is(org), Is("republish"), Rest]], Below([Is("$JS"), Is("API")], StreamsUserCalls) + [
      [Is("$JS"), Is("ACK"), Rest],
      [Is("$JS"), Is("FC"), Rest],
      [Is("$KV"), Rest],
      [Is("$O"), Rest]])
  }

  function EventsViewerPermissions(b: Broker, user: Account): Lists {
    if user == b.accounts.choria then
      Lists([
        [Is("choria"), Is("lifecycle"), Is("event"), Rest],
        [Is("choria"), Is("machine"), Is("watcher"), Rest],
        [Is("choria"), Is("machine"), Is("transition")]], [])
    else if user == b.accounts.provisioning then
      Lists([[Is("choria"), Is("lifecycle"), Is("event"), Star, Is("provision_mode_server")]], [])
    else Nothing
  }

  function GovernorPermissions(b: Broker, user: Account): Lists {
    if user != b.accounts.choria then Nothing
    else Lists([], [
      [Star, Is("governor"), Star],
      [Is("choria"), Is("lifecycle"), Is("event"), Is("governor"), Rest]])
  }

  function ElectionPermissions(b: Broker, user: Account): Lists {
    if user == b.accounts.choria then
      Lists([], [
        [Is("$JS"), Is("API"), Is("STREAM"), Is("INFO"), Is("KV_CHORIA_LEADER_ELECTION")],
        [Is("$KV"), Is("CHORIA_LEADER_ELECTION"), Rest]])
    else if user == b.accounts.provisioning then
      Lists([], [
        [Is("choria"), Is("streams"), Is("STREAM"), Is("INFO"), Is("KV_CHORIA_LEADER_ELECTION")],
        [Is("$KV"), Is("CHORIA_LEADER_ELECTION"), Is("provisioner")]])
    else Nothing
  }

  /** The lists after the claims of a permission record were tested, in the order of the source. */
  function GrantClaims(b: Broker, user: Account, org: Token, p: ClientPermissions, l: Lists): Lists {
    l.AppendIf(p.streamsAdmin, StreamsAdminPermissions(b, user))
     .AppendIf(p.streamsUser, StreamsUserPermissions(b, user, org))
     .AppendIf(p.eventsViewer, EventsViewerPermissions(b, user))
     .AppendIf(p.electionUser, ElectionPermissions(b, user))
     .AppendIf(p.governor && (p.streamsUser || p.streamsAdmin), GovernorPermissions(b, user))
     .AppendIf(p.fleetManagement || p.signedFleetManagement, FleetManagementPermissions)
  }

  predicate AnyClaimMatched(p: ClientPermissions) {
    || p.streamsAdmin || p.streamsUser || p.eventsViewer || p.electionUser
    || (p.governor && (p.streamsUser || p.streamsAdmin))
    || p.fleetManagement || p.signedFleetManagement
  }

  predicate IsOrgAdmin(client: Option<ClientClaims>) {
    client.Some? && client.value.permissions.Some? && client.value.permissions.value.orgAdmin
  }

  predicate IsFleetManager(client: Option<ClientClaims>) {
    && client.Some? && client.value.permissions.Some?
    && (client.value.permissions.value.fleetManagement || client.value.permissions.value.signedFleetManagement)
  }

  /** The allow lists of setClientTokenPermissions for a caller that is not an organization admin. */
  function ClientLists(b: Broker, user: Account, caller: string, client: Option<ClientClaims>): Lists {
    var l := MinimalClientPermissions(b, caller).Append(Lists(ExtraSubscribe(client), ExtraPublish(client)));
    if client.Some? && client.value.permissions.Some? then
      GrantClaims(b, user, client.value.org, client.value.permissions.value, l)
    else l
  }

  /** setClientTokenPermissions: publish and subscribe permissions. */
  function ClientTokenPermissions(b: Broker, user: Account, caller: string, client: Option<ClientClaims>)
    : (Permission, Permission)
  {
    if IsOrgAdmin(client) then (Permission(AllSubjects, []), Permission(AllSubjects, []))
    else
      var l := ClientLists(b, user, caller, client);
      var unmatched := client.Some? && client.value.permissions.Some?
        && !AnyClaimMatched(client.value.permissions.value);
      var lockDown := unmatched || user == b.accounts.choria;
      (Permission(l.pubs, if lockDown && l.pubs == [] then AllSubjects else []),
       Permission(l.subs, if lockDown && l.subs == [] then AllSubjects else []))
  }

  function ClientPublish(b: Broker, user: Account, caller: string, client: Option<ClientClaims>): Permission {
    ClientTokenPermissions(b, user, caller, client).0
  }

  function ClientSubscribe(b: Broker, user: Account, caller: string, client: Option<ClientClaims>): Permission {
    ClientTokenPermissions(b, user, caller, client).1
  }

  function ExtraSubscribe(client: Option<ClientClaims>): seq<Pattern> {
    if client.Some? then client.value.additionalSubscribe else []
  }

  function ExtraPublish(client: Option<ClientClaims>): seq<Pattern> {
    if client.Some? then client.value.additionalPublish else []
  }

  /** What every grant added to `l` means for one subject: the union of the granted languages. */
  lemma GrantClaimsLanguage(b: Broker, user: Account, org: Token, p: ClientPermissions, l: Lists, s: Subject)
    ensures AnyMatches(GrantClaims(b, user, org, p, l).subs, s) <==>
      || AnyMatches(l.subs, s)
      || (p.streamsAdmin && AnyMatches(StreamsAdminPermissions(b, user).subs, s))
      || (p.streamsUser && AnyMatches(StreamsUserPermissions(b, user, org).subs, s))
      || (p.eventsViewer && AnyMatches(EventsViewerPermissions(b, user).subs, s))
      || (p.electionUser && AnyMatches(ElectionPermissions(b, user).subs, s))
      || (p.governor && (p.streamsUser || p.streamsAdmin) && AnyMatches(GovernorPermissions(b, user).subs, s))
      || ((p.fleetManagement || p.signedFleetManagement) && AnyMatches(FleetManagementPermissions.subs, s))
    ensures AnyMatches(GrantClaims(b, user, org, p, l).pubs, s) <==>
      || AnyMatches(l.pubs, s)
      || (p.streamsAdmin && AnyMatches(StreamsAdminPermissions(b, user).pubs, s))
      || (p.streamsUser && AnyMatches(StreamsUserPermissions(b, user, org).pubs, s))
      || (p.eventsViewer && AnyMatches(EventsViewerPermissions(b, user).pubs, s))
      || (p.electionUser && AnyMatches(ElectionPermissions(b, user).pubs, s))
      || (p.governor && (p.streamsUser || p.streamsAdmin) && AnyMatches(GovernorPermissions(b, user).pubs, s))
      || ((p.fleetManagement || p.signedFleetManagement) && AnyMatches(FleetManagementPermissions.pubs, s))
    ensures |GrantClaims(b, user, org, p, l).subs| >= |l.subs| && |GrantClaims(b, user, org, p, l).pubs| >= |l.pubs|
  {
    ChainLanguage(l, p.streamsAdmin, StreamsAdminPermissions(b, user), p.streamsUser,
                  StreamsUserPermissions(b, user, org), p.eventsViewer, EventsViewerPermissions(b, user),
                  p.electionUser, ElectionPermissions(b, user), p.governor && (p.streamsUser || p.streamsAdmin),
                  GovernorPermissions(b, user), p.fleetManagement || p.signedFleetManagement,
                  FleetManagementPermissions, s);
  }

  lemma ChainLanguage(
    l: Lists, c1: bool, g1: Lists, c2: bool, g2: Lists, c3: bool, g3: Lists, c4: bool, g4: Lists, c5: bool, g5: Lists,
    c6: bool, g6: Lists, s: Subject)
    ensures
      var r := l.AppendIf(c1, g1).AppendIf(c2, g2).AppendIf(c3, g3).AppendIf(c4, g4).AppendIf(c5, g5).AppendIf(c6, g6);
      && (AnyMatches(r.subs, s) <==>
         || AnyMatches(l.subs, s) || (c1 && AnyMatches(g1.subs, s)) || (c2 && AnyMatches(g2.subs, s))
         || (c3 && AnyMatches(g3.subs, s)) || (c4 && AnyMatches(g4.subs, s)) || (c5 && AnyMatches(g5.subs, s))
         || (c6 && AnyMatches(g6.subs, s)))
      && (AnyMatches(r.pubs, s) <==>
         || AnyMatches(l.pubs, s) || (c1 && AnyMatches(g1.pubs, s)) || (c2 && AnyMatches(g2.pubs, s))
         || (c3 && AnyMatches(g3.pubs, s)) || (c4 && AnyMatches(g4.pubs, s)) || (c5 && AnyMatches(g5.pubs, s))
         || (c6 && AnyMatches(g6.pubs, s)))
      && |r.subs| >= |l.subs| && |r.pubs| >= |l.pubs|
  {
    var l1 := AppendLanguage(l, c1, g1, s);
    var l2 := AppendLanguage(l1, c2, g2, s);
    var l3 := AppendLanguage(l2, c3, g3, s);
    var l4 := AppendLanguage(l3, c4, g4, s);
    var l5 := AppendLanguage(l4, c5, g5, s);
    var l6 := AppendLanguage(l5, c6, g6, s);
  }

  lemma AppendLanguage(l: Lists, granted: bool, more: Lists, s: Subject) returns (r: Lists)
    ensures r == l.AppendIf(granted, more)
    ensures AnyMatches(r.subs, s) <==> AnyMatches(l.subs, s) || (granted && AnyMatches(more.subs, s))
    ensures AnyMatches(r.pubs, s) <==> AnyMatches(l.pubs, s) || (granted && AnyMatches(more.pubs, s))
    ensures |r.subs| >= |l.subs| && |r.pubs| >= |l.pubs|
  {
    r := l.AppendIf(granted, more);
    AnyMatchesConcat(l.subs, more.subs, s);
    AnyMatchesConcat(l.pubs, more.pubs, s);
  }

  /**
   * Nobody is left without a list, which NATS would read as unrestricted: an allow list is always present, so
   * neither deny-all fallback of setClientTokenPermissions is ever taken.
   */
  lemma ClientIsNeverUnrestricted(b: Broker, user: Account, caller: string, client: Option<ClientClaims>)
    ensures ClientPublish(b, user, caller, client).allow != []
    ensures ClientSubscribe(b, user, caller, client).allow != []
    ensures ClientPublish(b, user, caller, client).deny == []
    ensures ClientSubscribe(b, user, caller, client).deny == []
  {
    if client.Some? && client.value.permissions.Some? {
      var l := MinimalClientPermissions(b, caller).Append(Lists(ExtraSubscribe(client), ExtraPublish(client)));
      GrantClaimsLanguage(b, user, client.value.org, client.value.permissions.value, l, []);
    }
  }

  // ---------------------------------------------------------------------------------------------------------
  // What the client lists mean

  /** The subjects that carry requests to nodes, agents, services and into a federation. */
  predicate IsRequestSubject(s: Subject) {
    || (|s| >= 3 && s[1] == "node")
    || (|s| == 4 && s[1] == "broadcast" && (s[2] == "agent" || s[2] == "service"))
    || (|s| == 4 && s[0] == "choria" && s[1] == "federation" && s[3] == "federation")
  }

  lemma EveryRequestTargetIsARequestSubject(msg: Message, identity: Subject, federation: Token)
    requires msg.customTarget == [] && identity != []
    requires msg.kind == Request || msg.kind == DirectRequest || msg.kind == ServiceRequest
    ensures TargetForMessage(msg, identity).Target? && IsRequestSubject(TargetForMessage(msg, identity).subject)
    ensures TargetForMessage(msg, identity).subject[0] == msg.collective
    ensures IsRequestSubject(FederationTarget(federation, "federation"))
  {
  }

  lemma GrantsLeaveRepliesAlone(b: Broker, user: Account, org: Token, s: Subject)
    requires |s| > 2 && s[1] == "reply"
    ensures !AnyMatches(StreamsAdminPermissions(b, user).subs, s)
    ensures !AnyMatches(StreamsUserPermissions(b, user, org).subs, s)
    ensures !AnyMatches(EventsViewerPermissions(b, user).subs, s)
  {
    forall p | p in StreamsAdminPermissions(b, user).subs || p in StreamsUserPermissions(b, user, org).subs
               || p in EventsViewerPermissions(b, user).subs
      ensures !Matches(p, s)
    {
      assert Matches(p, s) ==> Covers(p[1], s[1]);
    }
  }

  lemma MinimalSubscribe(b: Broker, caller: string, collective: Token, digest: Token, rest: Subject)
    requires rest != []
    ensures AnyMatches(MinimalClientPermissions(b, caller).subs, ReplySubject(collective, digest, rest)) <==>
      caller == "" || digest in GrantedDigests(b.digests, b.fips, caller)
  {
    var s := ReplySubject(collective, digest, rest);
    var ds := GrantedDigests(b.digests, b.fips, caller);
    var ps := MinimalClientPermissions(b, caller).subs;
    if caller == "" {
      assert ps[0] == [Star, Is("reply"), Rest] && Matches(ps[0], s);
    } else {
      forall p | p in ps ensures Matches(p, s) <==> p[2] == Is(digest) {
        assert Matches(p, s) ==> Covers(p[2], s[2]);
      }
      if digest in ds {
        var i :| 0 <= i < |ds| && ds[i] == digest;
        assert ps[i] in ps && ps[i][2] == Is(digest);
      }
    }
  }

  /**
   * The reply subjects a client can listen on, exactly: its own granted digests, unless it is an organization admin,
   * has no caller name, or its token lists the subject itself. No other claim ever widens this.
   */
  lemma ClientHearsExactly(
    b: Broker, user: Account, caller: string, client: Option<ClientClaims>, collective: Token, digest: Token,
    rest: Subject)
    requires rest != []
    ensures Permits(ClientSubscribe(b, user, caller, client), ReplySubject(collective, digest, rest)) <==>
      || IsOrgAdmin(client)
      || caller == ""
      || digest in GrantedDigests(b.digests, b.fips, caller)
      || AnyMatches(ExtraSubscribe(client), ReplySubject(collective, digest, rest))
  {
    var s := ReplySubject(collective, digest, rest);
    ClientIsNeverUnrestricted(b, user, caller, client);
    if IsOrgAdmin(client) {
      AllSubjectsMatchAny(s);
    } else {
      ClientSubscribeLanguage(b, user, caller, client, s);
      MinimalSubscribe(b, caller, collective, digest, rest);
    }
  }

  /** An inbox below a granted digest, which a connection without a unique id has by accident only. */
  predicate IsOwnInbox(granted: seq<Token>, uniqueId: Token, rest: Subject) {
    if uniqueId != "" then uniqueId in granted else |rest| > 1 && rest[0] in granted
  }

  /** The inboxes a client hears, exactly: those without a unique id only as any other client's replies. */
  lemma InboxIsHeardExactly(
    b: Broker, user: Account, caller: string, client: Option<ClientClaims>, mainCollective: Token, uniqueId: Token,
    rest: Subject)
    requires rest != []
    ensures
      var inbox := InboxPrefix(mainCollective, uniqueId) + rest;
      Permits(ClientSubscribe(b, user, caller, client), inbox) <==>
        || IsOrgAdmin(client) || caller == "" || AnyMatches(ExtraSubscribe(client), inbox)
        || IsOwnInbox(GrantedDigests(b.digests, b.fips, caller), uniqueId, rest)
  {
    hide ClientSubscribe, Permits, AnyMatches, GrantedDigests;
    var inbox := InboxPrefix(mainCollective, uniqueId) + rest;
    if uniqueId != "" {
      assert inbox == ReplySubject(mainCollective, uniqueId, rest);
      ClientHearsExactly(b, user, caller, client, mainCollective, uniqueId, rest);
    } else if |rest| > 1 {
      assert inbox == ReplySubject(mainCollective, rest[0], rest[1..]);
      ClientHearsExactly(b, user, caller, client, mainCollective, rest[0], rest[1..]);
    } else {
      assert inbox == [mainCollective, "reply", rest[0]];
      ShortInboxIsHeardExactly(b, user, caller, client, inbox);
    }
  }

  lemma ShortInboxIsHeardExactly(b: Broker, user: Account, caller: string, client: Option<ClientClaims>, s: Subject)
    requires |s| == 3 && s[1] == "reply"
    ensures Permits(ClientSubscribe(b, user, caller, client), s) <==>
      IsOrgAdmin(client) || caller == "" || AnyMatches(ExtraSubscribe(client), s)
  {
    ClientIsNeverUnrestricted(b, user, caller, client);
    if IsOrgAdmin(client) {
      AllSubjectsMatchAny(s);
    } else {
      ClientSubscribeLanguage(b, user, caller, client, s);
      var ps := MinimalClientPermissions(b, caller).subs;
      if caller == "" {
        assert ps[0] == [Star, Is("reply"), Rest] && Matches(ps[0], s);
      } else {
        forall p | p in ps ensures !Matches(p, s) {
          assert |p| == 4;
        }
      }
    }
  }

  lemma ClientSubscribeLanguage(b: Broker, user: Account, caller: string, client: Option<ClientClaims>, s: Subject)
    requires |s| > 2 && s[1] == "reply" && !IsOrgAdmin(client)
    ensures AnyMatches(ClientSubscribe(b, user, caller, client).allow, s) <==>
      AnyMatches(MinimalClientPermissions(b, caller).subs, s) || AnyMatches(ExtraSubscribe(client), s)
  {
    var m := MinimalClientPermissions(b, caller);
    var l := m.Append(Lists(ExtraSubscribe(client), ExtraPublish(client)));
    AnyMatchesConcat(m.subs, ExtraSubscribe(client), s);
    if client.Some? && client.value.permissions.Some? {
      GrantClaimsLanguage(b, user, client.value.org, client.value.permissions.value, l, s);
      GrantsLeaveRepliesAlone(b, user, client.value.org, s);
    }
  }

  predicate DistinctDigests(d: Digests, a: string, b: string) {
    && d.md5(a) != d.md5(b) && d.md5(a) != d.sha256(b)
    && d.sha256(a) != d.md5(b) && d.sha256(a) != d.sha256(b)
  }

  lemma NothingMatches(s: Subject)
    ensures !AnyMatches([], s)
  {
  }

  /** Two named callers whose digests differ never hear each other, whatever else their tokens grant. */
  lemma RepliesArePrivate(
    b: Broker, user: Account, caller: string, client: Option<ClientClaims>, other: string, peerFips: bool,
    collective: Token, rest: Subject)
    requires caller != "" && rest != [] && !IsOrgAdmin(client) && ExtraSubscribe(client) == []
    requires DistinctDigests(b.digests, caller, other)
    ensures !Permits(ClientSubscribe(b, user, caller, client),
                     ReplySubject(collective, PeerDigest(b.digests, peerFips, other), rest))
  {
    hide ClientSubscribe, Permits, AnyMatches;
    assert !AnyMatches([], ReplySubject(collective, PeerDigest(b.digests, peerFips, other), rest)) by {
      NothingMatches(ReplySubject(collective, PeerDigest(b.digests, peerFips, other), rest));
    }
    ClientHearsExactly(b, user, caller, client, collective, PeerDigest(b.digests, peerFips, other), rest);
  }

  /**
   * A client hears its own replies exactly when the broker grants the digest its peers use - that is, unless a FIPS
   * broker meets peers that are not - or when it hears everyone's anyway.
   */
  lemma ClientHearsItsOwnReplies(
    b: Broker, user: Account, caller: string, client: Option<ClientClaims>, peerFips: bool, collective: Token,
    requestId: Token)
    requires b.digests.md5(caller) != b.digests.sha256(caller)
    ensures
      var reply := ReplyTarget(b.digests, peerFips, collective, caller, requestId);
      Permits(ClientSubscribe(b, user, caller, client), reply) <==>
        (b.fips ==> peerFips) || caller == "" || IsOrgAdmin(client) || AnyMatches(ExtraSubscribe(client), reply)
  {
    ClientHearsExactly(b, user, caller, client, collective, PeerDigest(b.digests, peerFips, caller), [requestId]);
  }

  /** The pattern fixes a first or second token that `s` does not have. */
  predicate FixesAnotherToken(p: Pattern, s: Subject) {
    |p| >= 2 && |s| >= 2 && ((p[0].Is? && p[0].token != s[0]) || (|p| > 2 && p[1].Is? && p[1].token != s[1]))
  }

  predicate Avoids(ps: seq<Pattern>, s: Subject) {
    forall p :: p in ps ==> FixesAnotherToken(p, s)
  }

  lemma AvoidedNeverMatches(ps: seq<Pattern>, s: Subject)
    requires Avoids(ps, s)
    ensures !AnyMatches(ps, s)
  {
    forall p | p in ps ensures !Matches(p, s) {
      assert Matches(p, s) ==> Covers(p[0], s[0]);
      assert |p| > 2 && Matches(p, s) ==> Covers(p[1], s[1]);
    }
  }

  lemma BelowNeverMatches(prefix: Pattern, rests: seq<Pattern>, s: Subject)
    requires |prefix| >= 2 && prefix[0].Is? && prefix[1].Is? && (forall r :: r in rests ==> r != [])
    requires |s| < 2 || s[0] != prefix[0].token || s[1] != prefix[1].token
    ensures !AnyMatches(Below(prefix, rests), s)
  {
    forall p | p in Below(prefix, rests) ensures !Matches(p, s) {
      assert Matches(p, s) ==> Covers(p[0], s[0]) && Covers(p[1], s[1]);
    }
  }

  /** The request subjects a streams user may publish to are those below its two bucket prefixes. */
  lemma StreamsReachRequestsExactly(b: Broker, user: Account, org: Token, s: Subject)
    requires IsRequestSubject(s)
    ensures AnyMatches(StreamsUserPermissions(b, user, org).pubs, s) <==>
      user == b.accounts.choria && (s[0] == "$KV" || s[0] == "$O")
    ensures AnyMatches(StreamsAdminPermissions(b, user).pubs, s) <==> user == b.accounts.choria && s[0] == "$JS"
  {
    if user == b.accounts.choria {
      var api := Below([Is("$JS"), Is("API")], StreamsUserCalls);
      var acks: seq<Pattern> := [[Is("$JS"), Is("ACK"), Rest], [Is("$JS"), Is("FC"), Rest]];
      var buckets: seq<Pattern> := [[Is("$KV"), Rest], [Is("$O"), Rest]];
      BelowNeverMatches([Is("$JS"), Is("API")], StreamsUserCalls, s);
      AvoidedNeverMatches(acks, s);
      AnyMatchesConcat(api, acks + buckets, s);
      AnyMatchesConcat(acks, buckets, s);
      assert acks + buckets == [
        [Is("$JS"), Is("ACK"), Rest], [Is("$JS"), Is("FC"), Rest], [Is("$KV"), Rest], [Is("$O"), Rest]];
      BucketsMatch(buckets, s);
      AnyOfOne([Is("$JS"), Rest], s);
    }
  }

  lemma AnyOfOne(p: Pattern, s: Subject)
    ensures AnyMatches([p], s) <==> Matches(p, s)
  {
    assert [p][0] == p;
  }

  lemma BucketsMatch(buckets: seq<Pattern>, s: Subject)
    requires IsRequestSubject(s) && buckets == [[Is("$KV"), Rest], [Is("$O"), Rest]]
    ensures AnyMatches(buckets, s) <==> s[0] == "$KV" || s[0] == "$O"
  {
    assert Matches(buckets[0], s) <==> s[0] == "$KV";
    assert Matches(buckets[1], s) <==> s[0] == "$O";
  }

  lemma GrantsLeaveRequestsAlone(b: Broker, user: Account, caller: string, s: Subject)
    requires IsRequestSubject(s)
    ensures !AnyMatches(GovernorPermissions(b, user).pubs, s)
    ensures !AnyMatches(ElectionPermissions(b, user).pubs, s)
    ensures !AnyMatches(MinimalClientPermissions(b, caller).pubs, s)
  {
    AvoidedNeverMatches(GovernorPermissions(b, user).pubs, s);
    AvoidedNeverMatches(ElectionPermissions(b, user).pubs, s);
    AvoidedNeverMatches(MinimalClientPermissions(b, caller).pubs, s);
  }

  lemma FleetManagementCoversRequests(s: Subject)
    requires IsRequestSubject(s)
    ensures AnyMatches(FleetManagementPermissions.pubs, s)
  {
    var ps := FleetManagementPermissions.pubs;
    if s[1] == "node" {
      assert Matches(ps[2], s);
    } else if s[1] == "broadcast" {
      assert Matches(ps[0], s) || Matches(ps[1], s);
    } else {
      assert Matches(ps[3], s);
    }
  }

  /** The request-like subjects below NATS' own prefixes that the streams claims open in the fleet account. */
  predicate StreamsReach(b: Broker, user: Account, client: Option<ClientClaims>, s: Subject)
    requires s != []
  {
    && user == b.accounts.choria && client.Some? && client.value.permissions.Some?
    && var p := client.value.permissions.value;
       (p.streamsAdmin && s[0] == "$JS") || (p.streamsUser && (s[0] == "$KV" || s[0] == "$O"))
  }

  /**
   * Who may publish requests: fleet managers and organization admins, and nobody else unless the token says so or the
   * subject only looks like a request of a collective named like a JetStream prefix.
   */
  lemma ClientRequestsExactly(b: Broker, user: Account, caller: string, client: Option<ClientClaims>, s: Subject)
    requires IsRequestSubject(s)
    ensures Permits(ClientPublish(b, user, caller, client), s) <==>
      || IsOrgAdmin(client) || IsFleetManager(client) || AnyMatches(ExtraPublish(client), s)
      || StreamsReach(b, user, client, s)
  {
    ClientIsNeverUnrestricted(b, user, caller, client);
    if IsOrgAdmin(client) {
      AllSubjectsMatchAny(s);
    } else {
      var m := MinimalClientPermissions(b, caller);
      var l := m.Append(Lists(ExtraSubscribe(client), ExtraPublish(client)));
      AnyMatchesConcat(m.pubs, ExtraPublish(client), s);
      GrantsLeaveRequestsAlone(b, user, caller, s);
      if client.Some? && client.value.permissions.Some? {
        GrantClaimsLanguage(b, user, client.value.org, client.value.permissions.value, l, s);
        StreamsReachRequestsExactly(b, user, client.value.org, s);
        FleetManagementCoversRequests(s);
      }
    }
  }
}
