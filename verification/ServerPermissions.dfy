// The permissions of servers, provisioning nodes and plain pub-sub users, the methods that write them onto a user,
// and what a server can and cannot do with them.
module ServerPermissionRules {
  import opened Options
  import opened Subjects
  import opened Permissions

  const DenyAll := Permission([], AllSubjects)

  // ---------------------------------------------------------------------------------------------------------
  // Claims based servers

  const ServerBasePublish: seq<Pattern> := [
    [Is("choria"), Is("lifecycle"), Rest],
    [Is("choria"), Is("machine"), Is("transition")],
    [Is("choria"), Is("machine"), Is("watcher"), Rest]]

  function When(granted: bool, p: Pattern): seq<Pattern> {
    if granted then [p] else []
  }

  predicate HostsServices(claims: ServerClaims) { claims.permissions.Some? && claims.permissions.value.serviceHost }

  predicate MaySubmit(claims: ServerClaims) { claims.permissions.Some? && claims.permissions.value.submission }

  predicate MayStream(claims: ServerClaims) { claims.permissions.Some? && claims.permissions.value.streams }

  predicate MayGovern(claims: ServerClaims) { MayStream(claims) && claims.permissions.value.governor }

  /** What one collective adds to the publish list. */
  function PublishIn(claims: ServerClaims, c: Token): seq<Pattern> {
    [[Is(c), Is("reply"), Rest],
     [Is(c), Is("broadcast"), Is("agent"), Is("registration")],
     [Is("choria"), Is("federation"), Is(c), Is("collective")]]
    + When(MaySubmit(claims), [Is(c), Is("submission"), Is("in"), Rest])
    + When(MayGovern(claims), [Is(c), Is("governor"), Star])
  }

  function OwnReplyPatterns(b: Broker, claims: ServerClaims, c: Token, name: string): seq<Pattern> {
    if b.fips then [[Is(c), Is("reply"), Is(b.digests.sha256(name)), Rest]]
    else [[Is(c), Is("reply"), Is(b.digests.md5(name)), Rest], [Is(c), Is("reply"), Is(b.digests.sha256(name)), Rest]]
  }

  function Literal(s: Subject): Pattern {
    seq(|s|, i requires 0 <= i < |s| => Is(s[i]))
  }

  /** The identity as the text the digests are computed from. */
  function Join(s: Subject): string {
    if s == [] then "" else if |s| == 1 then s[0] else s[0] + "." + Join(s[1..])
  }

  /** What one collective adds to the subscribe list. */
  function SubscribeIn(b: Broker, claims: ServerClaims, c: Token): seq<Pattern> {
    [[Is(c), Is("broadcast"), Is("agent"), Rest], Literal(NodeDirectedTarget(c, claims.identity))]
    + OwnReplyPatterns(b, claims, c, Join(claims.identity))
    + When(HostsServices(claims), [Is(c), Is("broadcast"), Is("service"), Rest])
  }

  /** A list extended by what each collective in turn adds to it. */
  function Gather(start: seq<Pattern>, f: Token -> seq<Pattern>, cs: seq<Token>): seq<Pattern> {
    if cs == [] then start else Gather(start, f, cs[..|cs| - 1]) + f(cs[|cs| - 1])
  }

  function Publishes(claims: ServerClaims): Token -> seq<Pattern> {
    c => PublishIn(claims, c)
  }

  function Subscribes(b: Broker, claims: ServerClaims): Token -> seq<Pattern> {
    c => SubscribeIn(b, claims, c)
  }

  const ServerCalls: seq<Pattern> := [
    [Is("STREAM"), Is("INFO"), Star],
    [Is("STREAM"), Is("MSG"), Is("GET"), Star],
    [Is("STREAM"), Is("MSG"), Is("DELETE"), Star],
    [Is("DIRECT"), Is("GET"), Star],
    [Is("DIRECT"), Is("GET"), Star, Rest],
    [Is("CONSUMER"), Is("CREATE"), Star],
    [Is("CONSUMER"), Is("CREATE"), Star, Rest],
    [Is("CONSUMER"), Is("DURABLE"), Is("CREATE"), Star, Star],
    [Is("CONSUMER"), Is("INFO"), Star, Star],
    [Is("CONSUMER"), Is("MSG"), Is("NEXT"), Star, Star]]

  function ApiPrefix(org: Token): Pattern {
    if org != "choria" then [Is("choria"), Is("streams")] else [Is("$JS"), Is("API")]
  }

  function StreamsPublish(claims: ServerClaims): seq<Pattern> {
    if !MayStream(claims) then []
    else Below(ApiPrefix(claims.org), ServerCalls) + [[Is("$JS"), Is("ACK"), Rest], [Is("$JS"), Is("FC"), Rest]]
  }

  function ServerPublish(claims: ServerClaims): Permission {
    if claims.collectives == [] then DenyAll
    else Permission(Gather(ServerBasePublish + claims.additionalPublish, Publishes(claims), claims.collectives)
                    + StreamsPublish(claims), [])
  }

  function ServerSubscribe(b: Broker, claims: ServerClaims): Permission {
    if claims.collectives == [] then DenyAll
    else Permission(Gather([], Subscribes(b, claims), claims.collectives)
                    + When(MayStream(claims), [Is(claims.org), Is("republish"), Rest]), [])
  }

  // ---------------------------------------------------------------------------------------------------------
  // Fixed permission sets

  const DefaultServerPublish := Permission(AllSubjects, [
    [Star, Is("broadcast"), Is("agent"), Rest],
    [Star, Is("broadcast"), Is("service"), Rest],
    [Star, Is("node"), Rest],
    [Is("choria"), Is("federation"), Star, Is("federation")]])

  const DefaultServerSubscribe := Permission([], [
    [Star, Is("reply"), Rest],
    [Is("choria"), Is("federation"), Rest],
    [Is("choria"), Is("lifecycle"), Rest]])

  const PubSub := Permission(AllSubjects, [
    [Star, Is("broadcast"), Rest],
    [Star, Is("node"), Rest],
    [Star, Is("reply"), Rest],
    [Is("choria"), Is("federation"), Rest],
    [Is("choria"), Is("lifecycle"), Rest],
    [Is("choria"), Is("machine"), Rest]])

  const ProvisioningPublish := Permission([
    [Is("choria"), Is("lifecycle"), Rest],
    [Is("provisioning"), Is("reply"), Rest],
    [Is("provisioning"), Is("registration"), Rest]], [])

  const ProvisioningSubscribe := Permission([
    [Is("provisioning"), Is("node"), Rest],
    [Is("provisioning"), Is("broadcast"), Is("agent"), Is("discovery")],
    [Is("provisioning"), Is("broadcast"), Is("agent"), Is("rpcutil")],
    [Is("provisioning"), Is("broadcast"), Is("agent"), Is("choria_util")],
    [Is("provisioning"), Is("broadcast"), Is("agent"), Is("choria_provision")]], [])

  /** What setServerPermissions settles on. */
  function ServerPermissionsFor(b: Broker, claims: Option<ServerClaims>): (Permission, Permission) {
    if b.denyServers then (DenyAll, DenyAll)
    else if claims.Some? then (ServerPublish(claims.value), ServerSubscribe(b, claims.value))
    else (DefaultServerPublish, DefaultServerSubscribe)
  }

  // ---------------------------------------------------------------------------------------------------------
  // The setters

  /** A server.User; unset permissions are empty ones. */
  class User {
    var username: string
    var password: string
    var account: Account
    var publish: Permission
    var subscribe: Permission

    constructor (username: string, password: string, account: Account)
      ensures this.username == username && this.password == password && this.account == account
      ensures publish == Permission([], []) && subscribe == Permission([], [])
    {
      this.username, this.password, this.account := username, password, account;
      publish, subscribe := Permission([], []), Permission([], []);
    }
  }

  /** The lists of setClientTokenPermissions, built claim by claim. */
  method BuildClientLists(b: Broker, account: Account, caller: string, client: Option<ClientClaims>)
    returns (pubs: seq<Pattern>, subs: seq<Pattern>, pubsDeny: seq<Pattern>, subsDeny: seq<Pattern>)
    ensures Permission(pubs, pubsDeny) == ClientPublish(b, account, caller, client)
    ensures Permission(subs, subsDeny) == ClientSubscribe(b, account, caller, client)
  {
    hide GrantClaims, MinimalClientPermissions;
    pubsDeny, subsDeny := [], [];
    var perms := if client.Some? then client.value.permissions else None;
    var org := if client.Some? then client.value.org else "";
    if perms.Some? && perms.value.orgAdmin {
      return AllSubjects, AllSubjects, [], [];
    }
    var l := SetMinimalClientPermissions(b, caller);
    assert l.subs + [] == l.subs && l.pubs + [] == l.pubs;
    if client.Some? {
      l := Lists(l.subs + client.value.additionalSubscribe, l.pubs + client.value.additionalPublish);
    }
    if perms.Some? {
      var matched;
      l, matched := AddClaims(b, account, org, perms.value, l);
      if !matched {
        subsDeny := if |l.subs| == 0 then AllSubjects else subsDeny;
        pubsDeny := if |l.pubs| == 0 then AllSubjects else pubsDeny;
      }
    }
    pubs, subs := l.pubs, l.subs;
    if account == b.accounts.choria {
      pubsDeny := if |pubs| == 0 then AllSubjects else pubsDeny;
      subsDeny := if |subs| == 0 then AllSubjects else subsDeny;
    }
  }

  method SetStreamsAdminPermissions(b: Broker, account: Account, given: Lists) returns (l: Lists)
    ensures l == given.Append(StreamsAdminPermissions(b, account))
  {
    if account != b.accounts.choria {
      assert given == given.Append(Nothing);
      return given;
    }
    l := Lists(given.subs + [[Is("$JS"), Is("EVENT"), Rest]], given.pubs + [[Is("$JS"), Rest]]);
  }

  method SetStreamsUserPermissions(b: Broker, account: Account, org: Token, given: Lists) returns (l: Lists)
    ensures l == given.Append(StreamsUserPermissions(b, account, org))
  {
    if account != b.accounts.choria {
      assert given == given.Append(Nothing);
      return given;
    }
    var pubs := Below([Is("$JS"), Is("API")], StreamsUserCalls) + [
      [Is("$JS"), Is("ACK"), Rest], [Is("$JS"), Is("FC"), Rest], [Is("$KV"), Rest], [Is("$O"), Rest]];
    l := Lists(given.subs + [[Is(org), Is("republish"), Rest]], given.pubs + pubs);
  }

  method SetEventsViewerPermissions(b: Broker, account: Account, given: Lists) returns (l: Lists)
    ensures l == given.Append(EventsViewerPermissions(b, account))
  {
    assert given.pubs + [] == given.pubs && given.subs + [] == given.subs;
    if account == b.accounts.choria {
      l := given.(subs := given.subs + [
        [Is("choria"), Is("lifecycle"), Is("event"), Rest], [Is("choria"), Is("machine"), Is("watcher"), Rest],
        [Is("choria"), Is("machine"), Is("transition")]]);
    } else if account == b.accounts.provisioning {
      l := given.(subs := given.subs + [
        [Is("choria"), Is("lifecycle"), Is("event"), Star, Is("provision_mode_server")]]);
    } else {
      l := given;
    }
  }

  method SetElectionPermissions(b: Broker, account: Account, given: Lists) returns (l: Lists)
    ensures l == given.Append(ElectionPermissions(b, account))
  {
    assert given.pubs + [] == given.pubs && given.subs + [] == given.subs;
    if account == b.accounts.choria {
      l := given.(pubs := given.pubs + [
        [Is("$JS"), Is("API"), Is("STREAM"), Is("INFO"), Is("KV_CHORIA_LEADER_ELECTION")],
        [Is("$KV"), Is("CHORIA_LEADER_ELECTION"), Rest]]);
    } else if account == b.accounts.provisioning {
      l := given.(pubs := given.pubs + [
        [Is("choria"), Is("streams"), Is("STREAM"), Is("INFO"), Is("KV_CHORIA_LEADER_ELECTION")],
        [Is("$KV"), Is("CHORIA_LEADER_ELECTION"), Is("provisioner")]]);
    } else {
      l := given;
    }
  }

  method SetGovernorPermissions(b: Broker, account: Account, given: Lists) returns (l: Lists)
    ensures l == given.Append(GovernorPermissions(b, account))
  {
    if account != b.accounts.choria {
      assert given == given.Append(Nothing);
      return given;
    }
    l := given.(pubs := given.pubs + [[Star, Is("governor"), Star]]);
    l := l.(pubs := l.pubs + [[Is("choria"), Is("lifecycle"), Is("event"), Is("governor"), Rest]]);
    assert l.pubs == given.pubs + GovernorPermissions(b, account).pubs && given.subs + [] == given.subs;
  }

  method SetFleetManagementPermissions(given: Lists) returns (l: Lists)
    ensures l == given.Append(FleetManagementPermissions)
  {
    assert given.subs + [] == given.subs;
    l := given.(pubs := given.pubs + [
      [Star, Is("broadcast"), Is("agent"), Rest], [Star, Is("broadcast"), Is("service"), Rest],
      [Star, Is("node"), Rest],
      [Is("choria"), Is("federation"), Star, Is("federation")]]);
  }

  /** The tests of the single claims, in order. */
  method AddClaims(b: Broker, account: Account, org: Token, p: ClientPermissions, given: Lists)
    returns (l: Lists, matched: bool)
    ensures l == GrantClaims(b, account, org, p, given) && (matched <==> AnyClaimMatched(p))
  {
    hide StreamsAdminPermissions, StreamsUserPermissions, EventsViewerPermissions, ElectionPermissions;
    hide GovernorPermissions, Lists.Append;
    l, matched := given, false;
    if p.streamsAdmin {
      matched := true;
      l := SetStreamsAdminPermissions(b, account, l);
    }
    if p.streamsUser {
      matched := true;
      l := SetStreamsUserPermissions(b, account, org, l);
    }
    if p.eventsViewer {
      matched := true;
      l := SetEventsViewerPermissions(b, account, l);
    }
    if p.electionUser {
      matched := true;
      l := SetElectionPermissions(b, account, l);
    }
    if p.governor && (p.streamsUser || p.streamsAdmin) {
      matched := true;
      l := SetGovernorPermissions(b, account, l);
    }
    if p.fleetManagement || p.signedFleetManagement {
      matched := true;
      l := SetFleetManagementPermissions(l);
    }
  }

  method SetMinimalClientPermissions(b: Broker, caller: string) returns (l: Lists)
    ensures l == MinimalClientPermissions(b, caller)
  {
    var subs;
    if caller == "" {
      subs := [[Star, Is("reply"), Rest]];
    } else if b.fips {
      subs := [[Star, Is("reply"), Is(b.digests.sha256(caller)), Rest]];
    } else {
      subs := [[Star, Is("reply"), Is(b.digests.md5(caller)), Rest],
               [Star, Is("reply"), Is(b.digests.sha256(caller)), Rest]];
    }
    l := Lists(subs, [[Is("$SYS"), Is("REQ"), Is("USER"), Is("INFO")]]);
  }

  /**
   * Leaves the user with an allow list in both directions: of the reply subjects it hears exactly its own unless its
   * token says more, of the request subjects it may publish none unless it manages the fleet or its token says so.
   */
  method SetClientPermissions(b: Broker, user: User, caller: string, client: Option<ClientClaims>)
    modifies user`publish, user`subscribe
    ensures user.publish == ClientPublish(b, user.account, caller, client)
    ensures user.subscribe == ClientSubscribe(b, user.account, caller, client)
    ensures user.publish.allow != [] && user.subscribe.allow != []
    ensures forall collective, digest, rest :: rest != [] ==>
      HearsReplies(user.subscribe, b, caller, client, collective, digest, rest)
    ensures forall s :: IsRequestSubject(s) ==> PublishesRequests(user.publish, b, user.account, client, s)
  {
    user.publish, user.subscribe := Permission([], []), Permission([], []);
    var pubs, subs, pubsDeny, subsDeny := BuildClientLists(b, user.account, caller, client);
    user.subscribe := user.subscribe.(allow := subs, deny := subsDeny);
    user.publish := user.publish.(allow := pubs, deny := pubsDeny);
    ClientIsNeverUnrestricted(b, user.account, caller, client);
    forall collective, digest, rest | rest != []
      ensures HearsReplies(user.subscribe, b, caller, client, collective, digest, rest)
    {
      ClientHearsExactly(b, user.account, caller, client, collective, digest, rest);
    }
    forall s | IsRequestSubject(s) ensures PublishesRequests(user.publish, b, user.account, client, s) {
      ClientRequestsExactly(b, user.account, caller, client, s);
    }
  }

  /** Of one reply subject: it is heard exactly by its owner, an organization admin, or who was given it. */
  ghost predicate HearsReplies(
    subscribe: Permission, b: Broker, caller: string, client: Option<ClientClaims>, collective: Token, digest: Token,
    rest: Subject)
  {
    Permits(subscribe, ReplySubject(collective, digest, rest)) <==>
      || IsOrgAdmin(client) || caller == "" || digest in GrantedDigests(b.digests, b.fips, caller)
      || AnyMatches(ExtraSubscribe(client), ReplySubject(collective, digest, rest))
  }

  /** Of one request subject: it is published exactly by fleet managers, organization admins, or who was given it. */
  ghost predicate PublishesRequests(publish: Permission, b: Broker, account: Account,
      client: Option<ClientClaims>, s: Subject)
    requires s != []
  {
    Permits(publish, s) <==>
      || IsOrgAdmin(client) || IsFleetManager(client) || AnyMatches(ExtraPublish(client), s)
      || StreamsReach(b, account, client, s)
  }

  /** One iteration over the collectives of a token. */
  method AddCollective(b: Broker, user: User, claims: ServerClaims, c: Token)
    modifies user`publish, user`subscribe
    ensures user.publish == old(user.publish).(allow := old(user.publish).allow + PublishIn(claims, c))
    ensures user.subscribe == old(user.subscribe).(allow := old(user.subscribe).allow + SubscribeIn(b, claims, c))
  {
    var pubs := [[Is(c), Is("reply"), Rest], [Is(c), Is("broadcast"), Is("agent"), Is("registration")],
                 [Is("choria"), Is("federation"), Is(c), Is("collective")]];
    var subs := [[Is(c), Is("broadcast"), Is("agent"), Rest], Literal(NodeDirectedTarget(c, claims.identity))];
    subs := subs + OwnReplyPatterns(b, claims, c, Join(claims.identity));
    if claims.permissions.Some? {
      if claims.permissions.value.serviceHost {
        subs := subs + [[Is(c), Is("broadcast"), Is("service"), Rest]];
      }
      if claims.permissions.value.submission {
        pubs := pubs + [[Is(c), Is("submission"), Is("in"), Rest]];
      }
      if claims.permissions.value.governor && claims.permissions.value.streams {
        pubs := pubs + [[Is(c), Is("governor"), Star]];
      }
    }
    user.publish := user.publish.(allow := user.publish.allow + pubs);
    user.subscribe := user.subscribe.(allow := user.subscribe.allow + subs);
  }

  method SetClaimsBasedServerPermissions(b: Broker, user: User, claims: ServerClaims)
    modifies user`publish, user`subscribe
    ensures user.publish == ServerPublish(claims)
    ensures user.subscribe == ServerSubscribe(b, claims)
  {
    var cs := claims.collectives;
    if |cs| == 0 {
      user.subscribe := Permission([], AllSubjects);
      user.publish := Permission([], AllSubjects);
      return;
    }
    user.subscribe := Permission([], []);
    user.publish := Permission(ServerBasePublish, []);
    user.publish := Permission(user.publish.allow + claims.additionalPublish, []);
    ghost var start := user.publish.allow;

    var i := 0;
    while i < |cs|
      invariant 0 <= i <= |cs|
      invariant user.publish == Permission(Gather(start, Publishes(claims), cs[..i]), [])
      invariant user.subscribe == Permission(Gather([], Subscribes(b, claims), cs[..i]), [])
    {
      AddCollective(b, user, claims, cs[i]);
      GatherNext(start, Publishes(claims), cs, i);
      GatherNext([], Subscribes(b, claims), cs, i);
      i := i + 1;
    }
    assert cs[..i] == cs;
    AddStreams(user, claims);
  }

  method AddStreams(user: User, claims: ServerClaims)
    modifies user`publish, user`subscribe
    ensures user.publish == old(user.publish).(allow := old(user.publish).allow + StreamsPublish(claims))
    ensures user.subscribe == old(user.subscribe).(
      allow := old(user.subscribe).allow + When(MayStream(claims), [Is(claims.org), Is("republish"), Rest]))
  {
    if claims.permissions.Some? && claims.permissions.value.streams {
      var prefix := [Is("$JS"), Is("API")];
      if claims.org != "choria" {
        prefix := [Is("choria"), Is("streams")];
      }
      user.subscribe := user.subscribe.(allow := user.subscribe.allow + [[Is(claims.org), Is("republish"), Rest]]);
      user.publish := user.publish.(
        allow := user.publish.allow + (Below(prefix, ServerCalls)
          + [[Is("$JS"), Is("ACK"), Rest], [Is("$JS"), Is("FC"), Rest]]));
    }
  }

  lemma GatherNext(start: seq<Pattern>, f: Token -> seq<Pattern>, cs: seq<Token>, i: nat)
    requires i < |cs|
    ensures Gather(start, f, cs[..i + 1]) == Gather(start, f, cs[..i]) + f(cs[i])
  {
    assert cs[..i + 1][..i] == cs[..i];
  }

  method SetServerPermissions(b: Broker, user: User, claims: Option<ServerClaims>)
    modifies user`publish, user`subscribe
    ensures (user.publish, user.subscribe) == ServerPermissionsFor(b, claims)
  {
    if b.denyServers {
      user.subscribe, user.publish := DenyAll, DenyAll;
    } else if claims.Some? {
      SetClaimsBasedServerPermissions(b, user, claims.value);
    } else {
      user.subscribe, user.publish := DefaultServerSubscribe, DefaultServerPublish;
    }
  }

  // ---------------------------------------------------------------------------------------------------------
  // What the server lists mean

  lemma {:induction false} GatherLanguage(start: seq<Pattern>, f: Token -> seq<Pattern>, cs: seq<Token>, s: Subject)
    ensures AnyMatches(Gather(start, f, cs), s) <==> AnyMatches(start, s) || exists c :: c in cs && AnyMatches(f(c), s)
    ensures |Gather(start, f, cs)| >= |start|
  {
    if cs != [] {
      var rest, last := cs[..|cs| - 1], cs[|cs| - 1];
      GatherLanguage(start, f, rest, s);
      AnyMatchesConcat(Gather(start, f, rest), f(last), s);
      assert cs == rest + [last];
      assert forall c :: c in cs <==> c in rest || c == last;
    }
  }

  lemma ServerPublishLanguage(claims: ServerClaims, s: Subject)
    requires s != []
    ensures Permits(ServerPublish(claims), s) <==>
      && claims.collectives != []
      && (|| AnyMatches(ServerBasePublish, s)
          || AnyMatches(claims.additionalPublish, s)
          || (exists c :: c in claims.collectives && AnyMatches(PublishIn(claims, c), s))
          || AnyMatches(StreamsPublish(claims), s))
  {
    AllSubjectsMatchAny(s);
    var cs := claims.collectives;
    if cs != [] {
      var start := ServerBasePublish + claims.additionalPublish;
      AnyMatchesConcat(ServerBasePublish, claims.additionalPublish, s);
      GatherLanguage(start, Publishes(claims), cs, s);
      AnyMatchesConcat(Gather(start, Publishes(claims), cs), StreamsPublish(claims), s);
    }
  }

  /** The subjects a server token might be asked about: requests, replies and replies into a federation broker. */
  predicate IsFleetSubject(s: Subject) {
    IsRequestSubject(s) || (|s| >= 4 && s[1] == "reply") || (|s| == 4 && s[..2] == ["choria", "federation"])
  }

  lemma CommonPublishAvoidsFleet(claims: ServerClaims, s: Subject)
    requires IsFleetSubject(s)
    ensures !AnyMatches(ServerBasePublish, s)
    ensures !AnyMatches(StreamsPublish(claims), s)
  {
    AvoidedNeverMatches(ServerBasePublish, s);
    if MayStream(claims) {
      var acks: seq<Pattern> := [[Is("$JS"), Is("ACK"), Rest], [Is("$JS"), Is("FC"), Rest]];
      BelowNeverMatches(ApiPrefix(claims.org), ServerCalls, s);
      AvoidedNeverMatches(acks, s);
      AnyMatchesConcat(Below(ApiPrefix(claims.org), ServerCalls), acks, s);
    }
  }

  /** What one collective lets a server publish among the fleet subjects. */
  lemma PublishInLanguage(claims: ServerClaims, c: Token, s: Subject)
    requires IsFleetSubject(s)
    ensures AnyMatches(PublishIn(claims, c), s) <==>
      || s == AgentBroadcastTarget(c, "registration")
      || (s[0] == c && s[1] == "reply")
      || s == FederationTarget(c, "collective")
  {
    var basic: seq<Pattern> := [
      [Is(c), Is("reply"), Rest], [Is(c), Is("broadcast"), Is("agent"), Is("registration")],
      [Is("choria"), Is("federation"), Is(c), Is("collective")]];
    var submit := When(MaySubmit(claims), [Is(c), Is("submission"), Is("in"), Rest]);
    var govern := When(MayGovern(claims), [Is(c), Is("governor"), Star]);
    AvoidedNeverMatches(submit, s);
    AvoidedNeverMatches(govern, s);
    AnyMatchesConcat(basic, submit, s);
    AnyMatchesConcat(basic + submit, govern, s);
    BasicPublishLanguage(basic, c, s);
  }

  lemma BasicPublishLanguage(basic: seq<Pattern>, c: Token, s: Subject)
    requires IsFleetSubject(s)
    requires basic == [
      [Is(c), Is("reply"), Rest], [Is(c), Is("broadcast"), Is("agent"), Is("registration")],
      [Is("choria"), Is("federation"), Is(c), Is("collective")]]
    ensures AnyMatches(basic, s) <==>
      || s == AgentBroadcastTarget(c, "registration")
      || (s[0] == c && s[1] == "reply")
      || s == FederationTarget(c, "collective")
  {
    assert Matches(basic[0], s) <==> s[0] == c && s[1] == "reply";
    assert Matches(basic[1], s) <==> s == AgentBroadcastTarget(c, "registration");
    assert Matches(basic[2], s) <==> s == FederationTarget(c, "collective");
  }

  /**
   * The fleet subjects a token-based server can publish to, exactly: registration broadcasts of its collectives, reply
   * subjects of its collectives, the collective side of a federation broker that is named like one of them, and what
   * its token lists.
   */
  lemma ServerPublishesExactly(claims: ServerClaims, s: Subject)
    requires IsFleetSubject(s)
    ensures Permits(ServerPublish(claims), s) <==>
      || (claims.collectives != [] && AnyMatches(claims.additionalPublish, s))
      || (exists c :: c in claims.collectives && s == AgentBroadcastTarget(c, "registration"))
      || (s[0] in claims.collectives && s[1] == "reply")
      || (exists c :: c in claims.collectives && s == FederationTarget(c, "collective"))
  {
    ServerPublishLanguage(claims, s);
    CommonPublishAvoidsFleet(claims, s);
    forall c | c in claims.collectives {
      PublishInLanguage(claims, c, s);
    }
  }

  /** A reply to a federated request gets past the permissions only for brokers named like a collective, or listed. */
  lemma FederatedReplyIsPublishable(claims: ServerClaims, broker: Token)
    ensures Permits(ServerPublish(claims), FederationTarget(broker, "collective")) <==>
      || broker in claims.collectives
      || (claims.collectives != [] && AnyMatches(claims.additionalPublish, FederationTarget(broker, "collective")))
  {
    var s := FederationTarget(broker, "collective");
    ServerPublishesExactly(claims, s);
    if broker in claims.collectives {
      assert s == FederationTarget(broker, "collective");
    }
    forall c | s == FederationTarget(c, "collective") ensures c == broker {
      assert s[2] == c;
    }
  }

  lemma FixedSetsNeverRequest(s: Subject)
    requires IsRequestSubject(s)
    ensures !Permits(DenyAll, s)
    ensures !Permits(DefaultServerPublish, s)
    ensures !Permits(ProvisioningPublish, s)
  {
    AllSubjectsMatchAny(s);
    FleetManagementCoversRequests(s);
    assert DefaultServerPublish.deny == FleetManagementPermissions.pubs;
    AvoidedNeverMatches(ProvisioningPublish.allow, s);
  }

  /** A plain pub-sub user touches neither requests nor replies, in either direction. */
  lemma PubSubStaysOutOfTheFleet(s: Subject)
    requires IsFleetSubject(s)
    ensures !Permits(PubSub, s)
  {
    var d := PubSub.deny;
    assert Matches(d[0], s) || Matches(d[1], s) || Matches(d[2], s) || Matches(d[3], s);
  }

  /**
   * A server never holds a requester's subjects: whatever server permissions a broker settles on, the only request
   * subjects in their publish language are the registration broadcast of a collective named in the token, and what the
   * token lists.
   */
  lemma ServersNeverRequest(b: Broker, claims: Option<ServerClaims>, s: Subject)
    requires IsRequestSubject(s)
    ensures Permits(ServerPermissionsFor(b, claims).0, s) <==>
      && !b.denyServers && claims.Some?
      && (|| (exists c :: c in claims.value.collectives && s == AgentBroadcastTarget(c, "registration"))
          || (claims.value.collectives != [] && AnyMatches(claims.value.additionalPublish, s)))
  {
    FixedSetsNeverRequest(s);
    if claims.Some? {
      ServerPublishesExactly(claims.value, s);
    }
  }

  // ---------------------------------------------------------------------------------------------------------
  // What a server can listen on

  lemma LiteralMatches(own: Subject, s: Subject)
    ensures Matches(Literal(own), s) <==> s == own
  {
    var p := Literal(own);
    if Matches(p, s) {
      forall i | 0 <= i < |s| ensures s[i] == own[i] {
        assert Covers(p[i], s[i]);
      }
    }
  }

  lemma AnyOfTwo(p: Pattern, q: Pattern, s: Subject)
    ensures AnyMatches([p, q], s) <==> Matches(p, s) || Matches(q, s)
  {
    assert [p, q][0] == p && [p, q][1] == q;
  }

  lemma AnyWhen(granted: bool, p: Pattern, s: Subject)
    ensures AnyMatches(When(granted, p), s) <==> granted && Matches(p, s)
  {
    assert granted ==> When(granted, p)[0] == p;
  }

  /** Within one collective: agent broadcasts, the own node subject, own replies, and services when hosting them. */
  predicate IsForServer(b: Broker, claims: ServerClaims, s: Subject)
    requires |s| >= 3
  {
    || (s[1] == "broadcast" && s[2] == "agent")
    || s == NodeDirectedTarget(s[0], claims.identity)
    || (s[1] == "reply" && s[2] in GrantedDigests(b.digests, b.fips, Join(claims.identity)))
    || (s[1] == "broadcast" && s[2] == "service" && HostsServices(claims))
  }

  lemma SubscribeInLanguage(b: Broker, claims: ServerClaims, c: Token, s: Subject)
    requires IsRequestSubject(s) || (|s| >= 4 && s[1] == "reply")
    ensures AnyMatches(SubscribeIn(b, claims, c), s) <==> s[0] == c && IsForServer(b, claims, s)
  {
    var agents: Pattern := [Is(c), Is("broadcast"), Is("agent"), Rest];
    var node := Literal(NodeDirectedTarget(c, claims.identity));
    var replies := OwnReplyPatterns(b, claims, c, Join(claims.identity));
    var services: Pattern := [Is(c), Is("broadcast"), Is("service"), Rest];
    var hosted := When(HostsServices(claims), services);
    LiteralMatches(NodeDirectedTarget(c, claims.identity), s);
    AnyMatchesConcat([agents, node], replies, s);
    AnyMatchesConcat([agents, node] + replies, hosted, s);
    assert Matches(agents, s) <==> s[0] == c && s[1] == "broadcast" && s[2] == "agent";
    assert Matches(services, s) <==> s[0] == c && s[1] == "broadcast" && s[2] == "service";
    AnyOfTwo(agents, node, s);
    AnyWhen(HostsServices(claims), services, s);
    OwnRepliesLanguage(b, claims, c, s);
  }

  lemma OwnRepliesLanguage(b: Broker, claims: ServerClaims, c: Token, s: Subject)
    requires IsRequestSubject(s) || (|s| >= 4 && s[1] == "reply")
    ensures AnyMatches(OwnReplyPatterns(b, claims, c, Join(claims.identity)), s) <==>
      s[0] == c && s[1] == "reply" && s[2] in GrantedDigests(b.digests, b.fips, Join(claims.identity))
  {
    var name := Join(claims.identity);
    var ps := OwnReplyPatterns(b, claims, c, name);
    var ds := GrantedDigests(b.digests, b.fips, name);
    assert |ps| == |ds|;
    forall i | 0 <= i < |ps|
      ensures Matches(ps[i], s) <==> s[0] == c && s[1] == "reply" && s[2] == ds[i]
    {
      assert ps[i] == [Is(c), Is("reply"), Is(ds[i]), Rest];
    }
  }

  /** The request and reply subjects a token-based server can subscribe to, exactly. */
  lemma ServerHearsExactly(b: Broker, claims: ServerClaims, s: Subject)
    requires IsRequestSubject(s) || (|s| >= 4 && s[1] == "reply")
    ensures Permits(ServerSubscribe(b, claims), s) <==> s[0] in claims.collectives && IsForServer(b, claims, s)
  {
    AllSubjectsMatchAny(s);
    var cs := claims.collectives;
    if cs != [] {
      var all := Gather([], Subscribes(b, claims), cs);
      var republish := When(MayStream(claims), [Is(claims.org), Is("republish"), Rest]);
      GatherLanguage([], Subscribes(b, claims), cs, s);
      AvoidedNeverMatches(republish, s);
      AnyMatchesConcat(all, republish, s);
      forall c | c in cs {
        SubscribeInLanguage(b, claims, c, s);
      }
      SubscribeListIsNotEmpty(b, claims, cs);
    }
  }

  lemma SubscribeListIsNotEmpty(b: Broker, claims: ServerClaims, cs: seq<Token>)
    requires cs != []
    ensures Gather([], Subscribes(b, claims), cs) != []
  {
    assert |Subscribes(b, claims)(cs[|cs| - 1])| >= 2;
  }

  /** The request of a fleet manager is publishable by it, and the servers it addresses may hear it. */
  lemma RequestReachesItsServers(
    b: Broker, user: Account, caller: string, client: Option<ClientClaims>, msg: Message, server: ServerClaims)
    requires msg.customTarget == [] && msg.kind in {Request, DirectRequest, ServiceRequest}
    requires IsFleetManager(client)
    requires msg.collective in server.collectives && server.identity != []
    requires msg.kind == ServiceRequest ==> HostsServices(server)
    ensures var target := TargetForMessage(msg, server.identity).subject;
            Permits(ClientPublish(b, user, caller, client), target) && Permits(ServerSubscribe(b, server), target)
  {
    var target := TargetForMessage(msg, server.identity).subject;
    EveryRequestTargetIsARequestSubject(msg, server.identity, "");
    ClientRequestsExactly(b, user, caller, client, target);
    ServerHearsExactly(b, server, target);
  }

  /**
   * A server of the collective may publish to the reply subject of any caller, and the caller hears it when the broker
   * grants the digest the caller uses.
   */
  lemma ReplyReachesItsRequester(
    b: Broker, user: Account, caller: string, client: Option<ClientClaims>, peerFips: bool, requestId: Token,
    collective: Token, server: ServerClaims)
    requires caller != "" && (b.fips ==> peerFips)
    requires collective in server.collectives
    ensures var reply := ReplyTarget(b.digests, peerFips, collective, caller, requestId);
            Permits(ServerPublish(server), reply) && Permits(ClientSubscribe(b, user, caller, client), reply)
  {
    ServerPublishesExactly(server, ReplyTarget(b.digests, peerFips, collective, caller, requestId));
    ClientHearsExactly(b, user, caller, client, collective, PeerDigest(b.digests, peerFips, caller), [requestId]);
  }

  /** A fleet manager may publish into every federation, and hears its inboxes below a granted unique id. */
  lemma FederatedRequestAndInboxArePermitted(
    b: Broker, user: Account, caller: string, client: Option<ClientClaims>, federation: Token, uniqueId: Token,
    mainCollective: Token, rest: Subject)
    requires IsFleetManager(client) && caller != "" && rest != []
    requires uniqueId != "" && uniqueId in GrantedDigests(b.digests, b.fips, caller)
    ensures Permits(ClientPublish(b, user, caller, client), FederationTarget(federation, "federation"))
    ensures Permits(ClientSubscribe(b, user, caller, client), InboxPrefix(mainCollective, uniqueId) + rest)
  {
    ClientRequestsExactly(b, user, caller, client, FederationTarget(federation, "federation"));
    InboxIsHeardExactly(b, user, caller, client, mainCollective, uniqueId, rest);
  }
}
