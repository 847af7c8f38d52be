// The rules of admission, independent of the order in which the handlers test them: for each kind of user what its
// connection brings, in terms of the connection, the settings and the answers of the libraries (choria_auth.go).
module AdmissionRules {
  import opened Options
  import opened Subjects
  import opened Permissions
  import opened ServerPermissionRules
  import opened Signers
  import opened Admission

  const Unlimited := Permission([], [])

  /** Parsing a token with the key of the issuer of its organization gives `r`. */
  ghost predicate IssuerGives<C>(a: Settings, l: Library, p: Parser<C>, jwt: string, r: Parsed<C>) {
    && l.org(jwt).Org? && l.org(jwt).ou in a.issuers
    && exists key :: a.codec.decode(a.issuers[l.org(jwt).ou]) == Some(key) && p.withKey(jwt, key) == r
  }

  /** A token over TLS, of a client connection, for the given purpose. */
  predicate BringsToken(l: Library, c: Connection, purpose: Purpose) {
    c.token != "" && c.tls.Some? && c.isClient && l.purpose(c.token) == purpose
  }

  /** The claims are vouched for, and the connection signs the nonce with the key they name. */
  ghost predicate ProvesClient(a: Settings, l: Library, c: Connection, claims: ClientClaims) {
    && BringsToken(l, c, ClientPurpose)
    && VouchedClient(a, l, c.token, claims) && SignsNonce(a, l, c, claims.publicKey)
  }

  ghost predicate ProvesServer(a: Settings, l: Library, c: Connection, claims: ServerClaims) {
    && BringsToken(l, c, ServerPurpose)
    && VouchedServer(a, l, c.token, claims) && SignsNonce(a, l, c, claims.publicKey)
  }

  ghost predicate EntersAsClient(a: Settings, l: Library, c: Connection, u: UserValue) {
    exists claims ::
      && ProvesClient(a, l, c, claims)
      && u == UserValue(
        claims.callerId, c.password, a.broker.accounts.choria,
        ClientPublish(a.broker, a.broker.accounts.choria, claims.callerId, Some(claims)),
        ClientSubscribe(a.broker, a.broker.accounts.choria, claims.callerId, Some(claims)))
  }

  ghost predicate EntersAsServer(a: Settings, l: Library, c: Connection, u: UserValue) {
    exists claims ::
      && ProvesServer(a, l, c, claims)
      && u == UserValue(
        Join(claims.identity), c.password, a.broker.accounts.choria,
        if a.broker.denyServers then DenyAll else ServerPublish(claims),
        if a.broker.denyServers then DenyAll else ServerSubscribe(a.broker, claims))
  }

  /** Verified TLS or a pipe, without a token that counts. */
  predicate EntersWithoutToken(a: Settings, c: Connection, u: UserValue) {
    && (c.token == "" || c.tls.None?)
    && (c.tls == Some(true) || c.remote == Some(Pipe))
    && u.username == c.username && u.password == c.password && u.account == a.broker.accounts.choria
    && (|| (&& a.hasClientAllowList
            && u.publish == (if a.broker.denyServers then DenyAll else DefaultServerPublish)
            && u.subscribe == (if a.broker.denyServers then DenyAll else DefaultServerSubscribe))
        || (&& !a.hasClientAllowList && (c.remote == Some(Pipe) || (!a.issuerBasedTLSAccess && a.issuers == map[]))
            && u.publish == Unlimited && u.subscribe == Unlimited)
        || (&& !a.hasClientAllowList && c.remote != Some(Pipe) && a.issuerBasedTLSAccess
            && u.publish == PubSub && u.subscribe == PubSub))
  }

  /** The name and password of the system user over verified TLS or a pipe, or with a token that grants them. */
  ghost predicate EntersAsSystem(a: Settings, l: Library, c: Connection, u: UserValue) {
    && c.username == a.systemUser && a.systemUser != "" && c.password == a.systemPass && a.systemPass != ""
    && a.broker.accounts.system != NoAccount
    && (|| c.tls == Some(true) || c.remote == Some(Pipe)
        || exists claims ::
             && ProvesClient(a, l, c, claims)
             && claims.permissions.Some? && (claims.permissions.value.systemUser || claims.permissions.value.orgAdmin))
    && u == UserValue(c.username, c.password, a.broker.accounts.system, Unlimited, Unlimited)
  }

  /** The password of the provisioner, in issuer mode with its token if it has or needs one, else over verified TLS. */
  ghost predicate EntersAsProvisioner(a: Settings, l: Library, c: Connection, u: UserValue) {
    && c.username == "provisioner" && c.password == a.provPass && a.provPass != ""
    && a.broker.accounts.provisioning != NoAccount
    && (|| (a.issuers == map[] && a.isTLS && c.tls == Some(true))
        || (a.issuers != map[] && c.token == "" && a.provWithoutToken)
        || (&& a.issuers != map[] && c.token != ""
            && exists claims ::
                 && IssuerGives(a, l, l.client, c.token, Good(claims))
                 && claims.permissions.Some? && claims.permissions.value.serverProvisioner))
    && u == UserValue(c.username, c.password, a.broker.accounts.provisioning, Unlimited, Unlimited)
  }

  /** A provisioning token, by issuer for EdDSA tokens in issuer mode and by the signer's file otherwise. */
  ghost predicate EntersAsNode(a: Settings, l: Library, c: Connection, u: UserValue) {
    && a.isTLS && c.tls == Some(false) && a.broker.accounts.provisioning != NoAccount && c.token != ""
    && (|| (&& l.isEdDSA(c.token) == Some(true) && a.issuers != map[] && a.provPass != ""
            && exists claims :: IssuerGives(a, l, l.provisioning, c.token, Good(claims)))
        || (&& l.isEdDSA(c.token).Some? && (l.isEdDSA(c.token) == Some(false) || a.issuers == map[])
            && a.provisioningTokenSigner != "" && l.fileExists(a.provisioningTokenSigner)
            && exists claims :: l.provisioning.withFile(c.token, a.provisioningTokenSigner) == Good(claims)))
    && u == UserValue(
      c.username, c.password, a.broker.accounts.provisioning, ProvisioningPublish, ProvisioningSubscribe)
  }

  ghost predicate EntersTheFleet(a: Settings, l: Library, c: Connection, u: UserValue) {
    EntersAsClient(a, l, c, u) || EntersAsServer(a, l, c, u) || EntersWithoutToken(a, c, u)
  }

  ghost predicate BelongsToTheFleet(a: Settings, l: Library, c: Connection) {
    exists u :: EntersTheFleet(a, l, c, u)
  }

  /** The names of the provisioner and the system user are not open to anybody else. */
  predicate HasOrdinaryName(a: Settings, c: Connection) {
    c.username != "provisioner" && (a.systemUser == "" || c.username != a.systemUser)
  }

  // ---------------------------------------------------------------------------------------------------------
  // The handlers follow the rules

  lemma ClientExactly(a: Settings, l: Library, c: Connection, claims: ClientClaims)
    requires BringsToken(l, c, ClientPurpose)
    ensures VerifiedClient(a, l, c) == Some(claims) <==> ProvesClient(a, l, c, claims)
  {
    hide ParseToken, Vouched, NonceVerified, SignsNonce;
    ClientIsVouched(a, l, c.token, claims);
    NonceVerifiedExactly(a, l, c, claims.publicKey);
  }

  lemma ServerExactly(a: Settings, l: Library, c: Connection, claims: ServerClaims)
    requires BringsToken(l, c, ServerPurpose)
    ensures VerifiedServer(a, l, c) == Some(claims) <==> ProvesServer(a, l, c, claims)
  {
    hide ParseToken, Vouched, NonceVerified, SignsNonce;
    ServerIsVouched(a, l, c.token, claims);
    NonceVerifiedExactly(a, l, c, claims.publicKey);
  }

  lemma FleetExactly(a: Settings, l: Library, c: Connection, u: UserValue)
    ensures DefaultUser(a, l, c) == Some(u) <==> EntersTheFleet(a, l, c, u)
  {
    hide VerifiedClient, VerifiedServer, ProvesClient, ProvesServer, ClientPublish, ClientSubscribe, ServerPublish;
    hide ServerSubscribe;
    ProofsBringTokens(a, l, c);
    TLSIsVerifiedOrNot(c);
    forall claims | BringsToken(l, c, ClientPurpose)
      ensures VerifiedClient(a, l, c) == Some(claims) <==> ProvesClient(a, l, c, claims)
    {
      ClientExactly(a, l, c, claims);
    }
    forall claims | BringsToken(l, c, ServerPurpose)
      ensures VerifiedServer(a, l, c) == Some(claims) <==> ProvesServer(a, l, c, claims)
    {
      ServerExactly(a, l, c, claims);
    }
  }

  lemma ProofsBringTokens(a: Settings, l: Library, c: Connection)
    ensures forall claims :: ProvesClient(a, l, c, claims) ==> BringsToken(l, c, ClientPurpose)
    ensures forall claims :: ProvesServer(a, l, c, claims) ==> BringsToken(l, c, ServerPurpose)
  {
  }

  lemma IssuerExactly<C>(a: Settings, l: Library, p: Parser<C>, jwt: string, claims: C)
    ensures ParseWithIssuer(a.codec, p, l.org, a.issuers, jwt) == Some(claims) <==>
            IssuerGives(a, l, p, jwt, Good(claims))
  {
  }

  lemma SystemExactly(a: Settings, l: Library, c: Connection, u: UserValue)
    ensures
      && HoldsSystemCredentials(a, c) && (IsVerified(c) || IsPipe(c) || HoldsSystemToken(a, l, c))
      && u == InSystemAccount(a, c)
      <==> EntersAsSystem(a, l, c, u)
  {
    hide VerifiedClient, ProvesClient;
    ProofsBringTokens(a, l, c);
    forall claims | BringsToken(l, c, ClientPurpose)
      ensures VerifiedClient(a, l, c) == Some(claims) <==> ProvesClient(a, l, c, claims)
    {
      ClientExactly(a, l, c, claims);
    }
  }

  lemma ProvisionerExactly(a: Settings, l: Library, c: Connection, u: UserValue)
    ensures c.username == "provisioner" && AdmitsProvisioner(a, l, c) && u == InProvisioningAccount(a, c)
            <==> EntersAsProvisioner(a, l, c, u)
  {
    hide ParseWithIssuer, IssuerGives;
    forall claims ensures ParseWithIssuer(a.codec, l.client, l.org, a.issuers, c.token) == Some(claims) <==>
                          IssuerGives(a, l, l.client, c.token, Good(claims))
    {
      IssuerExactly(a, l, l.client, c.token, claims);
    }
  }

  lemma NodeExactly(a: Settings, l: Library, c: Connection, u: UserValue)
    ensures a.isTLS && c.tls == Some(false) && c.username != "provisioner" && HoldsProvisioningToken(a, l, c)
            && u == ProvisioningNode(a, c)
            <==> c.username != "provisioner" && EntersAsNode(a, l, c, u)
  {
    hide ParseWithIssuer, IssuerGives;
    forall claims ensures ParseWithIssuer(a.codec, l.provisioning, l.org, a.issuers, c.token) == Some(claims) <==>
                          IssuerGives(a, l, l.provisioning, c.token, Good(claims))
    {
      IssuerExactly(a, l, l.provisioning, c.token, claims);
    }
    var eddsa := l.isEdDSA(c.token);
    assert eddsa.None? || eddsa == Some(true) || eddsa == Some(false) by {
      if eddsa.Some? {
        assert eddsa == Some(eddsa.value) && (eddsa.value || !eddsa.value);
      }
    }
  }

  /**
   * Whom Check registers, exactly, for all settings, libraries and connections: without TLS only what comes through a
   * pipe or to a broker without TLS; under the two special names only these users; under any other name, if the remote
   * address is known, a fleet user, or else a provisioning node.
   */
  lemma RegisteredExactly(a: Settings, l: Library, c: Connection, u: UserValue)
    ensures Decide(a, l, c) == Registered(u) <==>
      && (c.remote == Some(Pipe) || !a.isTLS || c.tls.Some?)
      && (|| EntersAsProvisioner(a, l, c, u)
          || (c.username != "provisioner" && EntersAsSystem(a, l, c, u))
          || (&& HasOrdinaryName(a, c) && c.remote.Some?
              && (|| EntersTheFleet(a, l, c, u)
                  || (!BelongsToTheFleet(a, l, c) && EntersAsNode(a, l, c, u)))))
  {
    hide DefaultUser, HoldsProvisioningToken, AdmitsProvisioner, HoldsSystemToken, EntersTheFleet, VerifiedClient;
    hide EntersAsNode, EntersAsSystem, EntersAsProvisioner, ParseClient, VerifiedServer;
    TLSIsVerifiedOrNot(c);
    ProvisionerExactly(a, l, c, u);
    SystemExactly(a, l, c, u);
    NodeExactly(a, l, c, u);
    FleetExactly(a, l, c, u);
    BelongsExactly(a, l, c);
    PipesBelong(a, l, c);
    NamesOfEntries(a, l, c, u);
    CrashingBringsNoToken(a, l, c);
  }

  lemma BelongsExactly(a: Settings, l: Library, c: Connection)
    ensures DefaultUser(a, l, c).Some? <==> BelongsToTheFleet(a, l, c)
  {
    hide DefaultUser, EntersTheFleet;
    if DefaultUser(a, l, c).Some? {
      var v := DefaultUser(a, l, c).value;
      assert DefaultUser(a, l, c) == Some(v);
      FleetExactly(a, l, c, v);
    }
    if v :| EntersTheFleet(a, l, c, v) {
      FleetExactly(a, l, c, v);
    }
  }

  lemma PipesBelong(a: Settings, l: Library, c: Connection)
    ensures c.tls.None? && IsPipe(c) ==> DefaultUser(a, l, c).Some?
  {
  }

  lemma NamesOfEntries(a: Settings, l: Library, c: Connection, u: UserValue)
    ensures EntersAsProvisioner(a, l, c, u) ==> c.username == "provisioner"
    ensures EntersAsSystem(a, l, c, u) ==> a.systemUser != "" && c.username == a.systemUser
    ensures EntersAsNode(a, l, c, u) ==> a.isTLS && c.tls == Some(false)
  {
  }

  lemma CrashingBringsNoToken(a: Settings, l: Library, c: Connection)
    ensures SystemTokenCrashes(a, l, c) ==> !HoldsSystemToken(a, l, c)
  {
  }
}
