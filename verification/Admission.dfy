// Admission of connections by the network broker: ChoriaAuth.Check and its handlers (broker/network/choria_auth.go).
module Admission {
  import opened Options
  import opened Subjects
  import opened Permissions
  import opened Coverage
  import opened ServerPermissionRules
  import opened Signers

  datatype Purpose = ClientPurpose | ServerPurpose | OtherPurpose

  datatype Remote = Pipe | Address(text: string)

  /** What a server.ClientAuthentication tells; `tls` holds whether the peer certificates verified. */
  datatype Connection = Connection(
    remote: Option<Remote>, tls: Option<bool>, isClient: bool, username: string, password: string, token: string,
    sig: string, nonce: string)

  /** Answers of library code: token parsing, signature verification and the file system. */
  datatype Library = Library(
    purpose: string -> Purpose, isEdDSA: string -> Option<bool>, org: string -> OrgClaim,
    client: Parser<ClientClaims>, server: Parser<ServerClaims>, provisioning: Parser<()>,
    decodeSignature: string -> Option<string>, verify: (Key, string, string) -> bool, fileExists: string -> bool,
    allowListed: Remote -> bool)

  datatype Settings = Settings(
    broker: Broker, codec: KeyCodec, hasClientAllowList: bool, isTLS: bool, provisioningTokenSigner: string,
    clientSigners: seq<string>, serverSigners: seq<string>, issuerBasedTLSAccess: bool, issuers: map<string, string>,
    provPass: string, provWithoutToken: bool, systemUser: string, systemPass: string)

  datatype UserValue = UserValue(username: string, password: string, account: Account, publish: Permission,
      subscribe: Permission)

  /** A nil remote makes the source dereference nil on some paths; that ends the connection without an answer. */
  datatype Decision = Denied | Registered(user: UserValue) | Crashed

  const ProvisioningUser := "provisioner"
  const PublicKeySize := 32

  predicate IsPipe(c: Connection) { c.remote == Some(Pipe) }

  predicate IsVerified(c: Connection) { c.tls == Some(true) }

  function NewUser(a: Settings, c: Connection): UserValue {
    UserValue(c.username, c.password, a.broker.accounts.choria, Permission([], []), Permission([], []))
  }

  predicate NonceVerified(a: Settings, l: Library, c: Connection, publicKey: string) {
    && c.sig != "" && publicKey != "" && c.nonce != ""
    && a.codec.decode(publicKey).Some? && l.decodeSignature(c.sig).Some?
    && |a.codec.decode(publicKey).value| == PublicKeySize
    && l.verify(a.codec.decode(publicKey).value, c.nonce, l.decodeSignature(c.sig).value)
  }

  function ClientComplete(): ClientClaims -> bool { (c: ClientClaims) => c.callerId != "" && c.publicKey != "" }

  function ServerComplete(): ServerClaims -> bool { (c: ServerClaims) => c.identity != [] && c.publicKey != "" }

  function ParseClient(a: Settings, l: Library, jwt: string): Option<ClientClaims> {
    ParseToken(a.codec, l.client, ClientRole, l.org, a.issuers, a.clientSigners, ClientComplete(), jwt)
  }

  function ParseServer(a: Settings, l: Library, jwt: string): Option<ServerClaims> {
    ParseToken(a.codec, l.server, ServerRole, l.org, a.issuers, a.serverSigners, ServerComplete(), jwt)
  }

  /** The claims of a client token whose holder also signed the connection nonce. */
  function VerifiedClient(a: Settings, l: Library, c: Connection): Option<ClientClaims> {
    var claims := ParseClient(a, l, c.token);
    if claims.Some? && NonceVerified(a, l, c, claims.value.publicKey) then claims else None
  }

  function VerifiedServer(a: Settings, l: Library, c: Connection): Option<ServerClaims> {
    var claims := ParseServer(a, l, c.token);
    if claims.Some? && NonceVerified(a, l, c, claims.value.publicKey) then claims else None
  }

  // ---------------------------------------------------------------------------------------------------------
  // Who is admitted where, as conditions on the settings and the connection

  predicate HoldsSystemCredentials(a: Settings, c: Connection) {
    && a.systemUser != "" && a.systemPass != "" && a.broker.accounts.system != NoAccount
    && c.username == a.systemUser && c.password == a.systemPass
  }

  predicate HoldsSystemToken(a: Settings, l: Library, c: Connection) {
    && c.tls.Some? && c.token != "" && l.purpose(c.token) == ClientPurpose && c.isClient
    && VerifiedClient(a, l, c).Some?
    && var p := VerifiedClient(a, l, c).value.permissions; p.Some? && (p.value.systemUser || p.value.orgAdmin)
  }

  predicate AdmitsProvisioner(a: Settings, l: Library, c: Connection) {
    && a.provPass != "" && a.broker.accounts.provisioning != NoAccount && c.password == a.provPass
    && if a.issuers != map[] then
         if c.token == "" then a.provWithoutToken
         else
           var claims := ParseWithIssuer(a.codec, l.client, l.org, a.issuers, c.token);
           claims.Some? && claims.value.permissions.Some? && claims.value.permissions.value.serverProvisioner
       else IsVerified(c) && a.isTLS
  }

  predicate HoldsProvisioningToken(a: Settings, l: Library, c: Connection) {
    && a.broker.accounts.provisioning != NoAccount && c.username != ProvisioningUser && c.token != ""
    && l.isEdDSA(c.token).Some?
    && if l.isEdDSA(c.token).value && a.issuers != map[] then
         a.provPass != "" && ParseWithIssuer(a.codec, l.provisioning, l.org, a.issuers, c.token).Some?
       else
         && a.provisioningTokenSigner != "" && l.fileExists(a.provisioningTokenSigner)
         && l.provisioning.withFile(c.token, a.provisioningTokenSigner).Good?
  }

  /** Whether handleDefaultConnection looks at the token at all. */
  predicate UsesToken(c: Connection) { c.token != "" && c.tls.Some? }

  /** handleDefaultConnection with a known remote: the registered user, or a denial. */
  function DefaultUser(a: Settings, l: Library, c: Connection): Option<UserValue> {
    var user := NewUser(a, c);
    var b := a.broker;
    if UsesToken(c) then
      if !c.isClient then None
      else match l.purpose(c.token)
        case ClientPurpose =>
          (match VerifiedClient(a, l, c)
           case None => None
           case Some(claims) => Some(user.(
             username := claims.callerId, publish := ClientPublish(b, user.account, claims.callerId, Some(claims)),
             subscribe := ClientSubscribe(b, user.account, claims.callerId, Some(claims)))))
        case ServerPurpose =>
          (match VerifiedServer(a, l, c)
           case None => None
           case Some(claims) => Some(user.(
             username := Join(claims.identity), publish := ServerPermissionsFor(b, Some(claims)).0,
             subscribe := ServerPermissionsFor(b, Some(claims)).1)))
        case OtherPurpose => None
    else if !IsVerified(c) && !IsPipe(c) then None
    else if a.hasClientAllowList then
      Some(user.(publish := ServerPermissionsFor(b, None).0, subscribe := ServerPermissionsFor(b, None).1))
    else if IsPipe(c) then Some(user)
    else if a.issuerBasedTLSAccess then Some(user.(publish := PubSub, subscribe := PubSub))
    else if a.issuers != map[] then None
    else Some(user)
  }

  function InSystemAccount(a: Settings, c: Connection): UserValue {
    NewUser(a, c).(account := a.broker.accounts.system)
  }

  function InProvisioningAccount(a: Settings, c: Connection): UserValue {
    NewUser(a, c).(account := a.broker.accounts.provisioning)
  }

  function ProvisioningNode(a: Settings, c: Connection): UserValue {
    InProvisioningAccount(a, c).(publish := ProvisioningPublish, subscribe := ProvisioningSubscribe)
  }

  /** There is no TLS over pipes; everything else must bring it to a TLS broker. */
  predicate PassesTLSGate(a: Settings, c: Connection) {
    IsPipe(c) || !a.isTLS || c.tls.Some?
  }

  /** The outcome of Check. */
  function Decide(a: Settings, l: Library, c: Connection): Decision {
    if !PassesTLSGate(a, c) then Denied
    else if c.username == ProvisioningUser then
      if AdmitsProvisioner(a, l, c) then Registered(InProvisioningAccount(a, c)) else Denied
    else if a.systemUser != "" && c.username == a.systemUser then
      if IsVerified(c) || IsPipe(c) then
        if HoldsSystemCredentials(a, c) then Registered(InSystemAccount(a, c)) else Denied
      else if SystemTokenCrashes(a, l, c) then Crashed
      else if HoldsSystemToken(a, l, c) && HoldsSystemCredentials(a, c) then Registered(InSystemAccount(a, c))
      else Denied
    else if c.remote.None? then Crashed
    else if DefaultUser(a, l, c).Some? then Registered(DefaultUser(a, l, c).value)
    else if a.isTLS && !IsVerified(c) && HoldsProvisioningToken(a, l, c) then Registered(ProvisioningNode(a, c))
    else Denied
  }

  /** Logging a token that does not parse dereferences the remote. */
  predicate SystemTokenCrashes(a: Settings, l: Library, c: Connection) {
    && c.remote.None? && c.tls.Some? && c.token != "" && l.purpose(c.token) == ClientPurpose && c.isClient
    && ParseClient(a, l, c.token).None?
  }

  // ---------------------------------------------------------------------------------------------------------
  // What admission guarantees, for every configuration

  predicate AdmittedTo(d: Decision, account: Account) {
    d.Registered? && d.user.account == account
  }

  /**
   * The system account is reached exactly with matching system credentials and one of: verified TLS, a pipe, or a
   * nonce-verified client token that grants system or organization admin access over TLS.
   */
  lemma SystemAccountExactly(a: Settings, l: Library, c: Connection)
    requires var accounts := a.broker.accounts;
             accounts.system != accounts.choria && accounts.system != accounts.provisioning
    ensures AdmittedTo(Decide(a, l, c), a.broker.accounts.system) <==>
      && HoldsSystemCredentials(a, c) && c.username != ProvisioningUser
      && (IsVerified(c) || IsPipe(c) || HoldsSystemToken(a, l, c))
  {
    DefaultUserIsOrdinary(a, l, c);
  }

  lemma DefaultUserIsOrdinary(a: Settings, l: Library, c: Connection)
    ensures DefaultUser(a, l, c).Some? ==> DefaultUser(a, l, c).value.account == a.broker.accounts.choria
  {
  }

  ghost predicate VouchedClient(a: Settings, l: Library, jwt: string, claims: ClientClaims) {
    && claims.callerId != "" && claims.publicKey != ""
    && Vouched(a.codec, l.client, ClientRole, l.org, a.issuers, a.clientSigners, jwt, claims)
  }

  ghost predicate VouchedServer(a: Settings, l: Library, jwt: string, claims: ServerClaims) {
    && claims.identity != [] && claims.publicKey != ""
    && Vouched(a.codec, l.server, ServerRole, l.org, a.issuers, a.serverSigners, jwt, claims)
  }

  /** The signature that the connection brings verifies the nonce with the key of the token. */
  ghost predicate SignsNonce(a: Settings, l: Library, c: Connection, publicKey: string) {
    && publicKey != "" && c.nonce != "" && c.sig != ""
    && exists key, signature ::
         && a.codec.decode(publicKey) == Some(key) && |key| == 32
         && l.decodeSignature(c.sig) == Some(signature) && l.verify(key, c.nonce, signature)
  }

  lemma NonceVerifiedExactly(a: Settings, l: Library, c: Connection, publicKey: string)
    ensures NonceVerified(a, l, c, publicKey) <==> SignsNonce(a, l, c, publicKey)
  {
  }

  ghost predicate HoldsClientToken(a: Settings, l: Library, c: Connection) {
    exists claims :: VouchedClient(a, l, c.token, claims) && SignsNonce(a, l, c, claims.publicKey)
  }

  ghost predicate HoldsServerToken(a: Settings, l: Library, c: Connection) {
    exists claims :: VouchedServer(a, l, c.token, claims) && SignsNonce(a, l, c, claims.publicKey)
  }

  /**
   * A client connection over TLS with a client or server token that is vouched for and whose holder signed the nonce.
   */
  ghost predicate HoldsFleetToken(a: Settings, l: Library, c: Connection) {
    && UsesToken(c) && c.isClient
    && ((l.purpose(c.token) == ClientPurpose && HoldsClientToken(a, l, c))
        || (l.purpose(c.token) == ServerPurpose && HoldsServerToken(a, l, c)))
  }

  lemma ClientIsVouched(a: Settings, l: Library, jwt: string, claims: ClientClaims)
    ensures ParseClient(a, l, jwt) == Some(claims) <==> VouchedClient(a, l, jwt, claims)
  {
    VouchedExactly(a.codec, l.client, ClientRole, l.org, a.issuers, a.clientSigners, ClientComplete(), jwt, claims);
  }

  lemma ServerIsVouched(a: Settings, l: Library, jwt: string, claims: ServerClaims)
    ensures ParseServer(a, l, jwt) == Some(claims) <==> VouchedServer(a, l, jwt, claims)
  {
    VouchedExactly(a.codec, l.server, ServerRole, l.org, a.issuers, a.serverSigners, ServerComplete(), jwt, claims);
  }

  lemma VerifiedExactly(a: Settings, l: Library, c: Connection)
    ensures VerifiedClient(a, l, c).Some? <==> HoldsClientToken(a, l, c)
    ensures VerifiedServer(a, l, c).Some? <==> HoldsServerToken(a, l, c)
  {
    hide ParseToken, Vouched, NonceVerified, SignsNonce;
    forall key ensures NonceVerified(a, l, c, key) <==> SignsNonce(a, l, c, key) {
      NonceVerifiedExactly(a, l, c, key);
    }
    forall claims ensures ParseClient(a, l, c.token) == Some(claims) <==> VouchedClient(a, l, c.token, claims) {
      ClientIsVouched(a, l, c.token, claims);
    }
    forall claims ensures ParseServer(a, l, c.token) == Some(claims) <==> VouchedServer(a, l, c.token, claims) {
      ServerIsVouched(a, l, c.token, claims);
    }
  }

  lemma TLSIsVerifiedOrNot(c: Connection)
    ensures c.tls.None? || IsVerified(c) || c.tls == Some(false)
  {
    if c.tls.Some? {
      assert c.tls == Some(c.tls.value);
      if c.tls.value {
        assert c.tls == Some(true);
      }
    }
  }

  /** Without a fleet token, verified TLS or a pipe nobody is admitted as a fleet user. */
  lemma FleetUserExactly(a: Settings, l: Library, c: Connection)
    requires !IsVerified(c)
    ensures DefaultUser(a, l, c).Some? <==> HoldsFleetToken(a, l, c) || (!UsesToken(c) && IsPipe(c))
  {
    hide ParseClient, ParseServer, ClientPublish, ClientSubscribe, ServerPermissionsFor;
    VerifiedExactly(a, l, c);
  }

  /**
   * The provisioning account is reached exactly by the provisioner password path or with a provisioning token: the
   * latter by unverified TLS connections to a TLS broker that name no system user and bring no fleet token.
   */
  lemma ProvisioningAccountExactly(a: Settings, l: Library, c: Connection)
    requires var accounts := a.broker.accounts;
             accounts.provisioning != accounts.choria && accounts.provisioning != accounts.system
    ensures AdmittedTo(Decide(a, l, c), a.broker.accounts.provisioning) <==>
      if c.username == ProvisioningUser then
        AdmitsProvisioner(a, l, c) && PassesTLSGate(a, c)
      else
        && a.isTLS && c.tls == Some(false) && c.remote.Some?
        && !(a.systemUser != "" && c.username == a.systemUser)
        && !HoldsFleetToken(a, l, c) && HoldsProvisioningToken(a, l, c)
  {
    hide DefaultUser, HoldsFleetToken;
    TLSIsVerifiedOrNot(c);
    DefaultUserIsOrdinary(a, l, c);
    if !IsVerified(c) {
      FleetUserExactly(a, l, c);
    }
  }

  /** A token node never gets more than the provisioning subjects, so it can reach nothing but a provisioner. */
  lemma ProvisioningNodesAreConfined(a: Settings, l: Library, c: Connection, s: Subject)
    requires AdmittedTo(Decide(a, l, c), a.broker.accounts.provisioning) && c.username != ProvisioningUser
    requires var accounts := a.broker.accounts;
             accounts.provisioning != accounts.choria && accounts.provisioning != accounts.system
    requires IsRequestSubject(s)
    ensures !Permits(Decide(a, l, c).user.publish, s)
    ensures Permits(Decide(a, l, c).user.subscribe, s) ==> s[0] == "provisioning"
  {
    DefaultUserIsOrdinary(a, l, c);
    FixedSetsNeverRequest(s);
    assert Decide(a, l, c).user == ProvisioningNode(a, c);
    forall p | p in ProvisioningSubscribe.allow ensures Matches(p, s) ==> s[0] == "provisioning" {
      assert Matches(p, s) ==> Covers(p[0], s[0]);
    }
  }

  /** Nobody gets in on nothing: verified TLS, a pipe, a verified token, or the provisioner password path. */
  lemma AdmissionNeedsCredentials(a: Settings, l: Library, c: Connection)
    requires Decide(a, l, c).Registered?
    ensures
      || IsVerified(c) || IsPipe(c)
      || (c.tls.Some? && (VerifiedClient(a, l, c).Some? || VerifiedServer(a, l, c).Some?))
      || (c.username == ProvisioningUser && AdmitsProvisioner(a, l, c))
      || HoldsProvisioningToken(a, l, c)
  {
  }

  // ---------------------------------------------------------------------------------------------------------
  // Who may use every subject

  /** One of the first two tokens of the pattern is named. */
  predicate NamesEarly(p: Pattern) {
    |p| >= 2 && (p[0].Is? || p[1].Is?)
  }

  ghost predicate AllNameTokens(l: Lists) {
    (forall p :: p in l.subs ==> NamesEarly(p)) && (forall p :: p in l.pubs ==> NamesEarly(p))
  }

  /** Every pattern that a claim grants names a token early on. */
  lemma GrantsNameTokens(b: Broker, account: Account, org: Token)
    ensures AllNameTokens(StreamsAdminPermissions(b, account))
    ensures AllNameTokens(StreamsUserPermissions(b, account, org))
    ensures AllNameTokens(EventsViewerPermissions(b, account))
    ensures AllNameTokens(ElectionPermissions(b, account))
    ensures AllNameTokens(GovernorPermissions(b, account))
    ensures AllNameTokens(FleetManagementPermissions)
  {
    StreamsNameTokens(b, account, org);
  }

  lemma StreamsNameTokens(b: Broker, account: Account, org: Token)
    ensures AllNameTokens(StreamsUserPermissions(b, account, org))
  {
    forall p | p in Below([Is("$JS"), Is("API")], StreamsUserCalls) ensures NamesEarly(p) {
    }
  }

  lemma MinimalNamesTokens(b: Broker, caller: string)
    ensures AllNameTokens(MinimalClientPermissions(b, caller))
  {
  }

  /** Every pattern of the lists names a token, or is one of the extra ones. */
  ghost predicate WithinExtras(l: Lists, client: Option<ClientClaims>) {
    && (forall p :: p in l.subs ==> NamesEarly(p) || p in ExtraSubscribe(client))
    && (forall p :: p in l.pubs ==> NamesEarly(p) || p in ExtraPublish(client))
    && (forall p :: p in ExtraSubscribe(client) ==> p in l.subs)
    && (forall p :: p in ExtraPublish(client) ==> p in l.pubs)
  }

  lemma AppendStaysWithin(l: Lists, granted: bool, more: Lists, client: Option<ClientClaims>) returns (r: Lists)
    requires WithinExtras(l, client) && AllNameTokens(more)
    ensures r == l.AppendIf(granted, more) && WithinExtras(r, client)
  {
    r := l.AppendIf(granted, more);
  }

  lemma ClientListsWithinExtras(b: Broker, account: Account, caller: string, client: Option<ClientClaims>)
    ensures WithinExtras(ClientLists(b, account, caller, client), client)
  {
    hide StreamsAdminPermissions, StreamsUserPermissions, EventsViewerPermissions, ElectionPermissions;
    hide GovernorPermissions, MinimalClientPermissions, WithinExtras, NamesEarly;
    MinimalNamesTokens(b, caller);
    MinimalWithExtras(MinimalClientPermissions(b, caller), client);
    var l := MinimalClientPermissions(b, caller).Append(Lists(ExtraSubscribe(client), ExtraPublish(client)));
    if client.Some? && client.value.permissions.Some? {
      var p, org := client.value.permissions.value, client.value.org;
      GrantsNameTokens(b, account, org);
      l := AppendStaysWithin(l, p.streamsAdmin, StreamsAdminPermissions(b, account), client);
      l := AppendStaysWithin(l, p.streamsUser, StreamsUserPermissions(b, account, org), client);
      l := AppendStaysWithin(l, p.eventsViewer, EventsViewerPermissions(b, account), client);
      l := AppendStaysWithin(l, p.electionUser, ElectionPermissions(b, account), client);
      l := AppendStaysWithin(
        l, p.governor && (p.streamsUser || p.streamsAdmin), GovernorPermissions(b, account), client);
      l := AppendStaysWithin(l, p.fleetManagement || p.signedFleetManagement, FleetManagementPermissions, client);
    }
  }

  lemma NamedEarly(p: Pattern)
    requires NamesEarly(p)
    ensures NamesAToken(p)
  {
  }

  lemma MinimalWithExtras(minimal: Lists, client: Option<ClientClaims>)
    requires AllNameTokens(minimal)
    ensures WithinExtras(minimal.Append(Lists(ExtraSubscribe(client), ExtraPublish(client))), client)
  {
  }

  ghost predicate UsesEverything(publish: Permission, subscribe: Permission) {
    forall s: Subject :: s != [] ==> Permits(publish, s) && Permits(subscribe, s)
  }

  ghost predicate OwnsEverything(client: Option<ClientClaims>) {
    IsOrgAdmin(client) || (CoversAll(ExtraPublish(client)) && CoversAll(ExtraSubscribe(client)))
  }

  /**
   * A client may use every subject exactly if it is an organization admin or its token lists patterns for all of
   * them.
   */
  lemma ClientUsesEverythingExactly(b: Broker, account: Account, caller: string, client: Option<ClientClaims>)
    ensures UsesEverything(ClientPublish(b, account, caller, client), ClientSubscribe(b, account, caller, client)) <==>
            OwnsEverything(client)
  {
    hide ClientLists, NamesAToken, NamesEarly;
    ClientIsNeverUnrestricted(b, account, caller, client);
    if IsOrgAdmin(client) {
      forall s: Subject | s != [] ensures AnyMatches(AllSubjects, s) {
        AllSubjectsMatchAny(s);
      }
    } else {
      var l := ClientLists(b, account, caller, client);
      ClientListsWithinExtras(b, account, caller, client);
      forall p | NamesEarly(p) ensures NamesAToken(p) {
        NamedEarly(p);
      }
      OnlyExtrasCoverAll(l.pubs, ExtraPublish(client));
      OnlyExtrasCoverAll(l.subs, ExtraSubscribe(client));
      assert CoversAll(l.pubs) && CoversAll(l.subs) <==>
        UsesEverything(ClientPublish(b, account, caller, client), ClientSubscribe(b, account, caller, client)) by {
        CoverageIsUse(ClientPublish(b, account, caller, client), ClientSubscribe(b, account, caller, client));
      }
    }
  }

  lemma CoverageIsUse(publish: Permission, subscribe: Permission)
    requires publish.deny == [] && subscribe.deny == [] && publish.allow != [] && subscribe.allow != []
    ensures UsesEverything(publish, subscribe) <==> CoversAll(publish.allow) && CoversAll(subscribe.allow)
  {
    forall s ensures !AnyMatches([], s) {
      NothingMatches(s);
    }
    if UsesEverything(publish, subscribe) {
      forall s: Subject | s != [] ensures AnyMatches(publish.allow, s) && AnyMatches(subscribe.allow, s) {
        assert Permits(publish, s) && Permits(subscribe, s);
      }
    }
  }

  /** All subjects a token-based server may subscribe to have at least two tokens. */
  lemma ServerNeedsTwoTokens(b: Broker, claims: ServerClaims)
    ensures !Permits(ServerSubscribe(b, claims), ["x"])
  {
    hide Gather, SubscribeIn, When;
    var s, cs: seq<Token> := ["x"], claims.collectives;
    AllSubjectsMatchAny(s);
    if cs != [] {
      var all := Gather([], Subscribes(b, claims), cs);
      var republish := When(MayStream(claims), [Is(claims.org), Is("republish"), Rest]);
      GatherLanguage([], Subscribes(b, claims), cs, s);
      AnyMatchesConcat(all, republish, s);
      SubscribeListIsNotEmpty(b, claims, cs);
      AnyWhen(MayStream(claims), [Is(claims.org), Is("republish"), Rest], s);
      forall c | c in cs ensures !AnyMatches(SubscribeIn(b, claims, c), s) {
        SubscribesTwoTokens(b, claims, c);
      }
      NothingMatches(s);
    }
  }

  lemma SubscribesTwoTokens(b: Broker, claims: ServerClaims, c: Token)
    ensures !AnyMatches(SubscribeIn(b, claims, c), ["x"])
  {
    forall p | p in SubscribeIn(b, claims, c) ensures |p| >= 2 {
    }
  }

  /** No server may subscribe to everything. */
  lemma ServerMissesSomething(b: Broker, claims: Option<ServerClaims>) returns (s: Subject)
    ensures s != [] && !Permits(ServerPermissionsFor(b, claims).1, s)
  {
    hide ServerSubscribe, ServerPublish;
    if !b.denyServers && claims.None? {
      s := ["", "reply", ""];
      assert Matches(DefaultServerSubscribe.deny[0], s);
    } else {
      s := ["x"];
      AllSubjectsMatchAny(s);
      if claims.Some? {
        ServerNeedsTwoTokens(b, claims.value);
      }
    }
  }

  /**
   * A user of the fleet account may use every subject in both directions exactly if a verified client token makes it
   * an organization admin or lists patterns for all subjects, or if no token was used, no client allow list is
   * configured, and the connection is a pipe, or verified TLS outside of issuer mode.
   */
  lemma UnrestrictedExactly(a: Settings, l: Library, c: Connection)
    ensures (DefaultUser(a, l, c).Some? &&
             UsesEverything(DefaultUser(a, l, c).value.publish, DefaultUser(a, l, c).value.subscribe)) <==>
      if UsesToken(c) then
        && c.isClient && l.purpose(c.token) == ClientPurpose && VerifiedClient(a, l, c).Some?
        && OwnsEverything(VerifiedClient(a, l, c))
      else
        && !a.hasClientAllowList
        && (IsPipe(c) || (IsVerified(c) && !a.issuerBasedTLSAccess && a.issuers == map[]))
  {
    hide ClientPublish, ClientSubscribe, ServerPermissionsFor, OwnsEverything, VerifiedClient, VerifiedServer;
    var b, account := a.broker, a.broker.accounts.choria;
    if UsesToken(c) {
      var client, server := VerifiedClient(a, l, c), VerifiedServer(a, l, c);
      if client.Some? {
        ClientUsesEverythingExactly(b, account, client.value.callerId, client);
      }
      if server.Some? {
        var s := ServerMissesSomething(b, server);
      }
    } else {
      var s := ServerMissesSomething(b, None);
      var reply: Subject := ["", "reply", ""];
      assert Matches(PubSub.deny[2], reply) && !Permits(PubSub, reply);
      NoListsUseEverything();
    }
  }

  lemma NoListsUseEverything()
    ensures UsesEverything(Permission([], []), Permission([], []))
  {
    forall s ensures !AnyMatches([], s) {
      NothingMatches(s);
    }
  }

  /** The callers of client tokens always have a name, so the shared reply space is never granted on admission. */
  lemma AdmittedClientsHearOnlyThemselves(a: Settings, l: Library, c: Connection, collective: Token,
      digest: Token, rest: Subject)
    requires UsesToken(c) && l.purpose(c.token) == ClientPurpose && DefaultUser(a, l, c).Some? && rest != []
    ensures Permits(DefaultUser(a, l, c).value.subscribe, ReplySubject(collective, digest, rest)) <==>
      || digest in GrantedDigests(a.broker.digests, a.broker.fips, VerifiedClient(a, l, c).value.callerId)
      || IsOrgAdmin(VerifiedClient(a, l, c))
      || AnyMatches(ExtraSubscribe(VerifiedClient(a, l, c)), ReplySubject(collective, digest, rest))
  {
    var claims := VerifiedClient(a, l, c);
    ClientHearsExactly(a.broker, a.broker.accounts.choria, claims.value.callerId, claims, collective, digest, rest);
  }

  /**
   * Check dies on a missing remote address exactly for connections that pass the TLS gate and do not name the
   * provisioner: all of them, or of those that name the system user the ones over unverified TLS with a client token
   * that nobody vouches for.
   */
  lemma CrashesExactly(a: Settings, l: Library, c: Connection)
    ensures Decide(a, l, c).Crashed? <==>
      && c.remote.None? && (a.isTLS ==> c.tls.Some?) && c.username != ProvisioningUser
      && (a.systemUser != "" && c.username == a.systemUser ==>
            && c.tls == Some(false) && c.isClient && c.token != "" && l.purpose(c.token) == ClientPurpose
            && forall claims :: !VouchedClient(a, l, c.token, claims))
  {
    hide ParseToken, Vouched, DefaultUser;
    TLSIsVerifiedOrNot(c);
    forall claims ensures ParseClient(a, l, c.token) == Some(claims) <==> VouchedClient(a, l, c.token, claims) {
      ClientIsVouched(a, l, c.token, claims);
    }
  }

  // ---------------------------------------------------------------------------------------------------------
  // The handlers

  /** The registrations made on one connection. */
  class Registry {
    var users: seq<UserValue>

    constructor ()
      ensures users == []
    {
      users := [];
    }

    method RegisterUser(u: User)
      modifies this
      ensures users == old(users) + [UserValue(u.username, u.password, u.account, u.publish, u.subscribe)]
    {
      users := users + [UserValue(u.username, u.password, u.account, u.publish, u.subscribe)];
    }
  }

  datatype Answer = Answer(verified: bool, err: bool) | Panic

  /** A handler answered `d`, registering accordingly: a registration if and only if it answered true. */
  ghost predicate Answers(d: Decision, r: Answer, before: seq<UserValue>, after: seq<UserValue>) {
    match d
    case Denied => r.Answer? && !r.verified && after == before
    case Registered(u) => r == Answer(true, false) && after == before + [u]
    case Crashed => r.Panic? && after == before
  }

  function Admit(admitted: bool, u: UserValue): Decision {
    if admitted then Registered(u) else Denied
  }

  class ChoriaAuth {
    const a: Settings
    const l: Library
    const cache: KeyCache

    ghost predicate Valid()
      reads this, cache
    {
      cache.Valid() && cache.codec == a.codec
    }

    constructor (a: Settings, l: Library)
      ensures Valid() && this.a == a && this.l == l && fresh(cache)
    {
      this.a, this.l := a, l;
      this.cache := new KeyCache(a.codec);
    }

    method CreateUser(c: Connection) returns (user: User)
      ensures fresh(user) && user.username == c.username && user.password == c.password
      ensures user.account == a.broker.accounts.choria
      ensures user.publish == Permission([], []) && user.subscribe == Permission([], [])
    {
      user := new User(c.username, c.password, a.broker.accounts.choria);
    }

    method VerifyNonceSignature(c: Connection, publicKey: string) returns (ok: bool)
      ensures ok <==> NonceVerified(a, l, c, publicKey)
      ensures ok <==> SignsNonce(a, l, c, publicKey)
    {
      NonceVerifiedExactly(a, l, c, publicKey);
      if c.sig == "" || publicKey == "" || |c.nonce| == 0 {
        return false;
      }
      var key := a.codec.decode(publicKey);
      if key.None? {
        return false;
      }
      var signature := l.decodeSignature(c.sig);
      if signature.None? || |key.value| != PublicKeySize {
        return false;
      }
      ok := l.verify(key.value, c.nonce, signature.value);
    }

    method VerifyClientJWT(c: Connection) returns (claims: Option<ClientClaims>)
      requires Valid()
      modifies cache
      ensures Valid()
      ensures claims == if c.remote.None? then None else VerifiedClient(a, l, c)
      ensures claims.Some? ==> VouchedClient(a, l, c.token, claims.value) && SignsNonce(a, l, c, claims.value.publicKey)
    {
      hide VouchedClient, SignsNonce;
      if c.remote.None? {
        return None;
      }
      claims := cache.Parse(l.client, ClientRole, l.org, a.issuers, a.clientSigners, ClientComplete(), c.token);
      if claims.None? {
        return None;
      }
      ClientIsVouched(a, l, c.token, claims.value);
      var signed := VerifyNonceSignature(c, claims.value.publicKey);
      if !signed {
        return None;
      }
    }

    method VerifyServerJWT(c: Connection) returns (claims: Option<ServerClaims>)
      requires Valid()
      modifies cache
      ensures Valid()
      ensures claims == if c.remote.None? then None else VerifiedServer(a, l, c)
      ensures claims.Some? ==> VouchedServer(a, l, c.token, claims.value) && SignsNonce(a, l, c, claims.value.publicKey)
    {
      hide VouchedServer, SignsNonce;
      if c.remote.None? {
        return None;
      }
      claims := cache.Parse(l.server, ServerRole, l.org, a.issuers, a.serverSigners, ServerComplete(), c.token);
      if claims.None? {
        return None;
      }
      ServerIsVouched(a, l, c.token, claims.value);
      var signed := VerifyNonceSignature(c, claims.value.publicKey);
      if !signed {
        return None;
      }
    }

    method HandleDefaultConnection(c: Connection, r: Registry) returns (answer: Answer)
      requires Valid()
      modifies cache, r
      ensures Valid()
      ensures Answers(if c.remote.None? then Crashed
                      else if DefaultUser(a, l, c).Some? then Registered(DefaultUser(a, l, c).value) else Denied,
                      answer, old(r.users), r.users)
    {
      hide ClientPublish, ClientSubscribe, ServerPermissionsFor;
      var user := CreateUser(c);
      if c.remote.None? {
        return Panic;
      }
      var pipeConnection := c.remote.value == Pipe;
      var tlsVerified := c.tls == Some(true);
      var inAllowList := l.allowListed(c.remote.value);
      var caller := "";
      var serverClaims: Option<ServerClaims>, clientClaims: Option<ClientClaims> := None, None;
      var setClientPerms, setServerPerms := false, false;
      var useToken := c.token != "" && c.tls.Some?;
      if useToken {
        match l.purpose(c.token) {
          case ClientPurpose =>
            if !c.isClient {
              return Answer(false, true);
            }
            clientClaims := VerifyClientJWT(c);
            if clientClaims.None? {
              return Answer(false, true);
            }
            caller := clientClaims.value.callerId;
            setClientPerms := true;
            user.username := caller;
          case ServerPurpose =>
            if !c.isClient {
              return Answer(false, true);
            }
            serverClaims := VerifyServerJWT(c);
            if serverClaims.None? {
              return Answer(false, true);
            }
            setServerPerms := true;
            user.username := Join(serverClaims.value.identity);
          case OtherPurpose =>
            return Answer(false, true);
        }
      }
      if !useToken && !tlsVerified && !pipeConnection {
        return Answer(false, true);
      } else if setClientPerms || (!setServerPerms && caller != "" && inAllowList) {
        SetClientPermissions(a.broker, user, caller, clientClaims);
      } else if setServerPerms || a.hasClientAllowList {
        SetServerPermissions(a.broker, user, serverClaims);
      } else if pipeConnection {
      } else if tlsVerified && a.issuerBasedTLSAccess {
        user.publish, user.subscribe := PubSub, PubSub;
      } else if |a.issuers| > 0 {
        return Answer(false, true);
      }
      r.RegisterUser(user);
      return Answer(true, false);
    }

    method HandleVerifiedSystemAccount(c: Connection, r: Registry) returns (answer: Answer)
      modifies r
      ensures Answers(Admit(HoldsSystemCredentials(a, c), InSystemAccount(a, c)), answer, old(r.users), r.users)
    {
      if a.systemUser == "" || a.systemPass == "" || a.broker.accounts.system == NoAccount {
        return Answer(false, true);
      }
      if c.username != a.systemUser || c.password != a.systemPass {
        return Answer(false, true);
      }
      var user := CreateUser(c);
      user.account := a.broker.accounts.system;
      r.RegisterUser(user);
      return Answer(true, false);
    }

    method HandleUnverifiedSystemAccount(c: Connection, r: Registry) returns (answer: Answer)
      requires Valid()
      modifies cache, r
      ensures Valid()
      ensures Answers(if SystemTokenCrashes(a, l, c) then Crashed
                      else Admit(HoldsSystemToken(a, l, c) && HoldsSystemCredentials(a, c), InSystemAccount(a, c)),
                      answer, old(r.users), r.users)
    {
      if c.tls.None? || c.token == "" || l.purpose(c.token) != ClientPurpose || !c.isClient {
        return Answer(false, true);
      }
      var claims := cache.Parse(l.client, ClientRole, l.org, a.issuers, a.clientSigners, ClientComplete(), c.token);
      if claims.None? {
        return if c.remote.None? then Panic else Answer(false, true);
      }
      var p := claims.value.permissions;
      if p.None? || !(p.value.systemUser || p.value.orgAdmin) {
        return Answer(false, true);
      }
      var signed := VerifyNonceSignature(c, claims.value.publicKey);
      if !signed {
        return Answer(false, true);
      }
      answer := HandleVerifiedSystemAccount(c, r);
    }

    method HandleProvisioningUserConnection(c: Connection, r: Registry) returns (answer: Answer)
      requires Valid()
      modifies cache, r
      ensures Valid()
      ensures Answers(Admit(AdmitsProvisioner(a, l, c), InProvisioningAccount(a, c)), answer, old(r.users), r.users)
    {
      if a.provPass == "" || a.broker.accounts.provisioning == NoAccount || c.password == ""
           || a.provPass != c.password {
        return Answer(false, true);
      }
      if |a.issuers| > 0 {
        if c.token == "" && !a.provWithoutToken {
          return Answer(false, true);
        }
        if c.token != "" {
          var claims := cache.ParseWithOrgIssuer(l.client, l.org, a.issuers, c.token);
          if claims.None? || claims.value.permissions.None? || !claims.value.permissions.value.serverProvisioner {
            return Answer(false, true);
          }
        }
      } else if !(c.tls == Some(true)) || !a.isTLS || c.tls.None? {
        return Answer(false, true);
      }
      var user := CreateUser(c);
      user.account := a.broker.accounts.provisioning;
      r.RegisterUser(user);
      return Answer(true, false);
    }

    method HandleUnverifiedProvisioningConnection(c: Connection, r: Registry) returns (answer: Answer)
      requires Valid()
      modifies cache, r
      ensures Valid()
      ensures Answers(Admit(HoldsProvisioningToken(a, l, c), ProvisioningNode(a, c)), answer, old(r.users), r.users)
    {
      if a.broker.accounts.provisioning == NoAccount || c.username == ProvisioningUser || c.token == "" {
        return Answer(false, true);
      }
      var alg := l.isEdDSA(c.token);
      if alg.None? {
        return Answer(false, true);
      }
      if alg.value && |a.issuers| > 0 {
        if a.provPass == "" {
          return Answer(false, true);
        }
        var claims := cache.ParseWithOrgIssuer(l.provisioning, l.org, a.issuers, c.token);
        if claims.None? {
          return Answer(false, true);
        }
      } else {
        if a.provisioningTokenSigner == "" || !l.fileExists(a.provisioningTokenSigner) {
          return Answer(false, true);
        }
        if l.provisioning.withFile(c.token, a.provisioningTokenSigner).Bad? {
          return Answer(false, true);
        }
      }
      var user := CreateUser(c);
      user.account := a.broker.accounts.provisioning;
      user.subscribe, user.publish := ProvisioningSubscribe, ProvisioningPublish;
      r.RegisterUser(user);
      return Answer(true, false);
    }

    /** Check answers true exactly when it registered a user, never registers two, and registers whom Decide names. */
    method Check(c: Connection, r: Registry) returns (verified: bool)
      requires Valid()
      modifies cache, r
      ensures Valid()
      ensures verified <==> Decide(a, l, c).Registered?
      ensures r.users == old(r.users) + if verified then [Decide(a, l, c).user] else []
    {
      hide DefaultUser, HoldsProvisioningToken, AdmitsProvisioner;
      var pipeConnection := c.remote.Some? && c.remote.value == Pipe;
      var tlsVerified := c.tls.Some? && c.tls.value;
      if !pipeConnection && a.isTLS && c.tls.None? {
        return false;
      }
      var systemUser := a.systemUser != "" && c.username == a.systemUser;
      var answer: Answer;
      if c.username == ProvisioningUser {
        answer := HandleProvisioningUserConnection(c, r);
      } else if systemUser && (tlsVerified || pipeConnection) {
        answer := HandleVerifiedSystemAccount(c, r);
      } else if systemUser && c.tls.None? {
        answer := Answer(false, false);
      } else if systemUser && !tlsVerified {
        answer := HandleUnverifiedSystemAccount(c, r);
      } else {
        answer := HandleDefaultConnection(c, r);
        if answer.Answer? && !answer.verified && a.isTLS && !tlsVerified {
          answer := HandleUnverifiedProvisioningConnection(c, r);
        }
      }
      if answer.Panic? {
        return false;
      }
      verified := answer.verified && !answer.err;
    }
  }
}
