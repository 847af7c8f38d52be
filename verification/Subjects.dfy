// NATS subjects and the subject constructors of the Choria connector.
//
// A subject such as "mcollective.node.dev1.example.net" is the sequence of its dot-separated tokens; the empty
// string is the empty sequence. Collectives, agents, organizations and federation names are single tokens, a
// node identity is any sequence of tokens.
module Subjects {
  type Token = string
  type Subject = seq<Token>

  /** One token of a permission pattern: a literal, `*` (exactly one token) or a trailing `>` (one or more tokens). */
  datatype Part = Is(token: Token) | Star | Rest

  type Pattern = seq<Part>

  predicate Covers(p: Part, t: Token) {
    p.Is? ==> p.token == t
  }

  predicate IsMulti(p: Pattern) {
    p != [] && p[|p| - 1] == Rest
  }

  /** The matching rule of the NATS documentation. */
  predicate Matches(p: Pattern, s: Subject) {
    if IsMulti(p) then
      |s| >= |p| && forall i :: 0 <= i < |p| - 1 ==> Covers(p[i], s[i])
    else
      |s| == |p| && forall i :: 0 <= i < |p| ==> Covers(p[i], s[i])
  }

  /** The same rule, token by token: `*` and a literal take one token, a last `>` all that are left, at least one. */
  predicate MatchesInSteps(p: Pattern, s: Subject) {
    if p == [] then s == []
    else if p == [Rest] then s != []
    else s != [] && (p[0].Is? ==> p[0].token == s[0]) && MatchesInSteps(p[1..], s[1..])
  }

  lemma {:induction false} MatchesStepByStep(p: Pattern, s: Subject)
    ensures Matches(p, s) <==> MatchesInSteps(p, s)
  {
    if p != [] && p != [Rest] && s != [] {
      MatchesStepByStep(p[1..], s[1..]);
      MatchesFirst(p, s);
    }
  }

  lemma MatchesFirst(p: Pattern, s: Subject)
    requires p != [] && p != [Rest] && s != []
    ensures Matches(p, s) <==> Covers(p[0], s[0]) && Matches(p[1..], s[1..])
  {
    assert IsMulti(p) <==> IsMulti(p[1..]);
    if Covers(p[0], s[0]) && Matches(p[1..], s[1..]) {
      forall i | 0 <= i < |p| && (IsMulti(p) ==> i < |p| - 1) ensures Covers(p[i], s[i]) {
        assert i > 0 ==> p[i] == p[1..][i - 1] && s[i] == s[1..][i - 1];
      }
    }
    if Matches(p, s) {
      forall i | 0 <= i < |p[1..]| && (IsMulti(p) ==> i < |p| - 2) ensures Covers(p[1..][i], s[1..][i]) {
        assert Covers(p[i + 1], s[i + 1]);
      }
    }
  }

  predicate AnyMatches(ps: seq<Pattern>, s: Subject) {
    exists p :: p in ps && Matches(p, s)
  }

  /** A server.SubjectPermission; an unset one is Permission([], []). */
  datatype Permission = Permission(allow: seq<Pattern>, deny: seq<Pattern>)

  /** No allow list allows everything, a deny list always wins. */
  predicate Permits(perm: Permission, s: Subject) {
    && (perm.allow == [] || AnyMatches(perm.allow, s))
    && !AnyMatches(perm.deny, s)
  }

  /** The language of an appended allow list is the union of the languages. */
  lemma AnyMatchesConcat(a: seq<Pattern>, b: seq<Pattern>, s: Subject)
    ensures AnyMatches(a + b, s) <==> AnyMatches(a, s) || AnyMatches(b, s)
  {
    forall p | p in a ensures p in a + b {}
    forall p | p in b ensures p in a + b {}
    assert forall p :: p in a + b ==> p in a || p in b;
  }

  const AllSubjects: seq<Pattern> := [[Rest]]

  lemma AllSubjectsMatchAny(s: Subject)
    requires s != []
    ensures AnyMatches(AllSubjects, s)
  {
    assert AllSubjects[0] == [Rest] && Matches([Rest], s);
  }

  // ---------------------------------------------------------------------------------------------------------
  // Subject constructors

  function NodeDirectedTarget(collective: Token, identity: Subject): Subject {
    [collective, "node"] + identity
  }

  function AgentBroadcastTarget(collective: Token, agent: Token): Subject {
    [collective, "broadcast", "agent", agent]
  }

  function ServiceBroadcastTarget(collective: Token, agent: Token): Subject {
    [collective, "broadcast", "service", agent]
  }

  function FederationTarget(federation: Token, side: Token): Subject {
    ["choria", "federation", federation, side]
  }

  /** The md5 and sha256 hex digests as functions into single tokens. */
  datatype Digests = Digests(md5: string -> Token, sha256: string -> Token)

  /** The digest a peer derives its own reply subjects from. */
  function PeerDigest(d: Digests, fips: bool, caller: string): Token {
    if fips then d.sha256(caller) else d.md5(caller)
  }

  /** The digests a broker grants a caller. */
  function GrantedDigests(d: Digests, fips: bool, caller: string): seq<Token> {
    if fips then [d.sha256(caller)] else [d.md5(caller), d.sha256(caller)]
  }

  /** Any subject below the private reply space of one digest: reply targets and inboxes. */
  function ReplySubject(collective: Token, digest: Token, rest: Subject): Subject {
    [collective, "reply", digest] + rest
  }

  function ReplyTarget(d: Digests, fips: bool, collective: Token, caller: string, requestId: Token): Subject {
    ReplySubject(collective, PeerDigest(d, fips, caller), [requestId])
  }

  /** The inbox prefix of a connection: private when a unique id was taken from a token, shared otherwise. */
  function InboxPrefix(mainCollective: Token, uniqueId: Token): Subject {
    if uniqueId != "" then [mainCollective, "reply", uniqueId] else [mainCollective, "reply"]
  }

  datatype MessageType = PlainMessage | Request | DirectRequest | ServiceRequest | Reply

  datatype Message = Message(
    kind: MessageType, collective: Token, agent: Token, requestId: Token,
    replyTo: Subject, customTarget: Subject, discoveredHosts: seq<Subject>)

  datatype TargetResult = Target(subject: Subject) | NoTarget

  function TargetForMessage(msg: Message, identity: Subject): TargetResult {
    if msg.customTarget != [] then Target(msg.customTarget)
    else match msg.kind
      case Reply => if msg.replyTo == [] then NoTarget else Target(msg.replyTo)
      case Request => Target(AgentBroadcastTarget(msg.collective, msg.agent))
      case ServiceRequest => Target(ServiceBroadcastTarget(msg.collective, msg.agent))
      case DirectRequest => Target(NodeDirectedTarget(msg.collective, identity))
      case PlainMessage => NoTarget
  }
}
