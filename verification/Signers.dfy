// Token verification against a list of signers or an organization issuer, with the public key cache
// (broker/network/choria_auth.go). Token parsing and Ed25519 are library code: their answers are arbitrary functions.
module Signers {
  import opened Options

  type Key = string

  datatype Role = ClientRole | ServerRole

  datatype ParseError = TokenExpired | WrongPurpose | InvalidCallerId | OtherError

  datatype Parsed<+C> = Good(claims: C) | Bad(error: ParseError)

  /** How tokens of one purpose are parsed: with a public key, or with the key file named by the signer. */
  datatype Parser<!C> = Parser(withKey: (string, Key) -> Parsed<C>, withFile: (string, string) -> Parsed<C>)

  /** Recognizing and decoding hex encoded Ed25519 public keys. */
  datatype KeyCodec = KeyCodec(isKey: string -> bool, decode: string -> Option<Key>)

  /** The unverified organization claim of a token. */
  datatype OrgClaim = Unparsable | NoOrg | NotText | Org(ou: string)

  /** Errors no other signer can resolve. */
  predicate IsFatal(role: Role, e: ParseError) {
    e.TokenExpired? || e.WrongPurpose? || (role == ClientRole && e.InvalidCallerId?)
  }

  datatype Trial<+C> = Accepts(claims: C) | Refuses | Skips

  /** What one signer makes of a token. */
  function Try<C>(k: KeyCodec, p: Parser<C>, role: Role, jwt: string, signer: string): Trial<C> {
    if k.isKey(signer) && k.decode(signer).None? then Skips
    else
      var r := if k.isKey(signer) then p.withKey(jwt, k.decode(signer).value) else p.withFile(jwt, signer);
      match r
      case Good(claims) => Accepts(claims)
      case Bad(e) => if IsFatal(role, e) then Refuses else Skips
  }

  /** What parsing the token with one signer gives: with its key, or with the file it names. */
  ghost predicate Gives<C>(k: KeyCodec, p: Parser<C>, jwt: string, signer: string, r: Parsed<C>) {
    if k.isKey(signer) then k.decode(signer).Some? && p.withKey(jwt, k.decode(signer).value) == r
    else p.withFile(jwt, signer) == r
  }

  /** Another signer may still accept: the key is no key, or the token neither expired nor names the wrong purpose. */
  ghost predicate LeavesOpen<C>(k: KeyCodec, p: Parser<C>, role: Role, jwt: string, signer: string) {
    || (k.isKey(signer) && k.decode(signer).None?)
    || Gives(k, p, jwt, signer, Bad(OtherError))
    || (role == ServerRole && Gives(k, p, jwt, signer, Bad(InvalidCallerId)))
  }

  /** Some signer validates the token and every earlier one left it open. */
  ghost predicate AcceptedAt<C>(k: KeyCodec, p: Parser<C>, role: Role, jwt: string, signers: seq<string>,
      i: nat, claims: C) {
    && i < |signers| && Gives(k, p, jwt, signers[i], Good(claims))
    && forall j :: 0 <= j < i ==> LeavesOpen(k, p, role, jwt, signers[j])
  }

  lemma TryExactly<C>(k: KeyCodec, p: Parser<C>, role: Role, jwt: string, signer: string, claims: C)
    ensures Try(k, p, role, jwt, signer) == Accepts(claims) <==> Gives(k, p, jwt, signer, Good(claims))
    ensures Try(k, p, role, jwt, signer).Skips? <==> LeavesOpen(k, p, role, jwt, signer)
  {
  }

  function Search<C>(k: KeyCodec, p: Parser<C>, role: Role, jwt: string, signers: seq<string>): Option<C> {
    if signers == [] then None
    else match Try(k, p, role, jwt, signers[0])
      case Accepts(claims) => Some(claims)
      case Refuses => None
      case Skips => Search(k, p, role, jwt, signers[1..])
  }

  /** The search accepts exactly the claims of the first signer that does not fail non-fatally, if it validates them. */
  lemma {:induction false} SearchIsExact<C>(k: KeyCodec, p: Parser<C>, role: Role, jwt: string,
      signers: seq<string>, claims: C)
    ensures Search(k, p, role, jwt, signers) == Some(claims) <==>
            exists i: nat :: AcceptedAt(k, p, role, jwt, signers, i, claims)
  {
    hide Gives, LeavesOpen, Try;
    if signers != [] {
      var rest := signers[1..];
      SearchIsExact(k, p, role, jwt, rest, claims);
      TryExactly(k, p, role, jwt, signers[0], claims);
      if Search(k, p, role, jwt, signers) == Some(claims) {
        if Try(k, p, role, jwt, signers[0]).Skips? {
          var i: nat :| AcceptedAt(k, p, role, jwt, rest, i, claims);
          assert forall j :: 0 < j <= i ==> signers[j] == rest[j - 1];
          assert AcceptedAt(k, p, role, jwt, signers, i + 1, claims);
        } else {
          assert AcceptedAt(k, p, role, jwt, signers, 0, claims);
        }
      }
      if i: nat :| AcceptedAt(k, p, role, jwt, signers, i, claims) {
        if i > 0 {
          assert forall j :: 0 <= j < i - 1 ==> rest[j] == signers[j + 1];
          assert AcceptedAt(k, p, role, jwt, rest, i - 1, claims);
        }
      }
    }
  }

  /** parseServerJWTWithIssuer and parseClientIDJWTWithIssuer without the cache. */
  function ParseWithIssuer<C>(k: KeyCodec, p: Parser<C>, org: string -> OrgClaim, issuers: map<string,
      string>, jwt: string): Option<C> {
    match org(jwt)
    case Org(ou) =>
      if ou !in issuers || k.decode(issuers[ou]).None? then None
      else (match p.withKey(jwt, k.decode(issuers[ou]).value)
            case Good(claims) => Some(claims)
            case Bad(_) => None)
    case _ => None
  }

  /** parseServerJWT and parseClientIDJWT: issuers win over signers, with neither everything is denied. */
  function ParseToken<C>(
    k: KeyCodec, p: Parser<C>, role: Role, org: string -> OrgClaim, issuers: map<string, string>, signers: seq<string>,
    complete: C -> bool, jwt: string): Option<C>
  {
    var found :=
      if jwt == "" then None
      else if issuers != map[] then ParseWithIssuer(k, p, org, issuers, jwt)
      else Search(k, p, role, jwt, signers);
    if found.Some? && complete(found.value) then found else None
  }

  /** Who vouches for the claims of a token: the issuer of its organization, or without issuers one of the signers. */
  ghost predicate Vouched<C>(
    k: KeyCodec, p: Parser<C>, role: Role, org: string -> OrgClaim, issuers: map<string, string>, signers: seq<string>,
    jwt: string, claims: C)
  {
    && jwt != ""
    && if issuers == map[] then exists i: nat :: AcceptedAt(k, p, role, jwt, signers, i, claims)
       else
         && org(jwt).Org? && org(jwt).ou in issuers && k.decode(issuers[org(jwt).ou]).Some?
         && p.withKey(jwt, k.decode(issuers[org(jwt).ou]).value) == Good(claims)
  }

  /** Verification yields exactly the complete claims that somebody vouches for, and nothing for an empty token. */
  lemma VouchedExactly<C>(
    k: KeyCodec, p: Parser<C>, role: Role, org: string -> OrgClaim, issuers: map<string, string>, signers: seq<string>,
    complete: C -> bool, jwt: string, claims: C)
    ensures ParseToken(k, p, role, org, issuers, signers, complete, jwt) == Some(claims) <==>
            complete(claims) && Vouched(k, p, role, org, issuers, signers, jwt, claims)
  {
    SearchIsExact(k, p, role, jwt, signers, claims);
  }

  /** ChoriaAuth.tokenCache and the methods that go through it. */
  class KeyCache {
    const codec: KeyCodec
    var tokenCache: map<string, Key>

    /** Every cached key is the decoding of its text. */
    ghost predicate Valid()
      reads this
    {
      forall t :: t in tokenCache ==> codec.decode(t) == Some(tokenCache[t])
    }

    constructor (codec: KeyCodec)
      ensures Valid() && this.codec == codec && tokenCache == map[]
    {
      this.codec := codec;
      tokenCache := map[];
    }

    method CachedKey(token: string) returns (key: Option<Key>)
      requires Valid()
      modifies this
      ensures Valid()
      ensures key == codec.decode(token)
      ensures tokenCache == if key.Some? then old(tokenCache)[token := key.value] else old(tokenCache)
    {
      if token in tokenCache {
        assert tokenCache == tokenCache[token := tokenCache[token]];
        return Some(tokenCache[token]);
      }
      key := codec.decode(token);
      if key.Some? {
        tokenCache := tokenCache[token := key.value];
      }
    }

    /**
     * The signer loop. `err` and `claims` are the two results of the source; with no signer at all neither is set,
     * which the callers exclude.
     */
    method ParseWithSigners<C>(p: Parser<C>, role: Role, jwt: string, signers: seq<string>)
      returns (err: bool, claims: Option<C>)
      requires Valid()
      modifies this
      ensures Valid()
      ensures claims == Search(codec, p, role, jwt, signers)
      ensures err <==> signers != [] && claims.None?
    {
      err, claims := false, None;
      var i := 0;
      while i < |signers|
        invariant 0 <= i <= |signers| && Valid()
        invariant claims.None? && (err <==> i > 0)
        invariant Search(codec, p, role, jwt, signers) == Search(codec, p, role, jwt, signers[i..])
      {
        var s := signers[i];
        assert signers[i..][0] == s && signers[i..][1..] == signers[i + 1..];
        var parsed;
        if codec.isKey(s) {
          var key := CachedKey(s);
          if key.None? {
            err := true;
            i := i + 1;
            continue;
          }
          parsed := p.withKey(jwt, key.value);
        } else {
          parsed := p.withFile(jwt, s);
        }
        if |signers| == 1 && parsed.Bad? {
          return true, None;
        }
        if parsed.Bad? && IsFatal(role, parsed.error) {
          return true, None;
        }
        if parsed.Bad? {
          err := true;
          i := i + 1;
          continue;
        }
        return false, Some(parsed.claims);
      }
    }

    method ParseWithOrgIssuer<C>(p: Parser<C>, org: string -> OrgClaim, issuers: map<string, string>, jwt: string)
      returns (claims: Option<C>)
      requires Valid()
      modifies this
      ensures Valid()
      ensures claims == ParseWithIssuer(codec, p, org, issuers, jwt)
    {
      var ou := org(jwt);
      if !ou.Org? || ou.ou !in issuers {
        return None;
      }
      var key := CachedKey(issuers[ou.ou]);
      if key.None? {
        return None;
      }
      var parsed := p.withKey(jwt, key.value);
      claims := if parsed.Good? then Some(parsed.claims) else None;
    }

    /** Cached and uncached verification agree, whatever the cache already holds. */
    method Parse<C>(
      p: Parser<C>, role: Role, org: string -> OrgClaim, issuers: map<string, string>, signers: seq<string>,
      complete: C -> bool, jwt: string) returns (claims: Option<C>)
      requires Valid()
      modifies this
      ensures Valid()
      ensures claims == ParseToken(codec, p, role, org, issuers, signers, complete, jwt)
    {
      if |signers| == 0 && |issuers| == 0 {
        return None;
      }
      if jwt == "" {
        return None;
      }
      if |issuers| > 0 {
        claims := ParseWithOrgIssuer(p, org, issuers, jwt);
      } else {
        var err;
        err, claims := ParseWithSigners(p, role, jwt, signers);
      }
      if claims.Some? && !complete(claims.value) {
        claims := None;
      }
    }
  }
}
