// Submission messages (submission/msg.go): validation and conversion to a NATS message.
module SpoolMessage {
  datatype Message = Message(
    id: string, subject: string, payload: string, reliable: bool, priority: nat, created: int, ttl: real, maxTries: nat,
    tries: nat, nextTry: int, sender: string, identity: string, sign: bool, headers: map<string, string>)

  datatype Error =
    | NoSubject | NoPayload | BadPriority | NoCreated | NoTTL | LongTTL | NoSender | Expired | ReservedHeader | MaxTries
    | SeedNotSet | SeedNotFound | SignatureFailed

  datatype Result<+T> = Ok(value: T) | Err(error: Error)

  const MaxTTL: real := 2678400.0
  const Second: int := 1000000000

  /** A duration in whole seconds, truncated towards zero, in nanoseconds. */
  function Seconds(ttl: real): int {
    Second * (if ttl >= 0.0 then ttl.Floor else -((-ttl).Floor))
  }

  function Lower(c: char): char {
    if 'A' <= c <= 'Z' then (c as int + 32) as char else c
  }

  predicate HasPrefixFold(s: string, prefix: string) {
    |s| >= |prefix| && forall i :: 0 <= i < |prefix| ==> Lower(s[i]) == prefix[i]
  }

  predicate IsReserved(header: string) {
    HasPrefixFold(header, "choria") || HasPrefixFold(header, "nats")
  }

  /** The first problem of a message at time `now`; a created time of 0 is the zero time. */
  function Validate(m: Message, now: int): Result<()> {
    if m.subject == "" then Err(NoSubject)
    else if m.payload == "" then Err(NoPayload)
    else if m.priority > 4 then Err(BadPriority)
    else if m.created == 0 then Err(NoCreated)
    else if m.ttl == 0.0 then Err(NoTTL)
    else if m.ttl > MaxTTL then Err(LongTTL)
    else if m.sender == "" then Err(NoSender)
    else if now - m.created > Seconds(m.ttl) then Err(Expired)
    else if exists h :: h in m.headers && IsReserved(h) then Err(ReservedHeader)
    else Ok(())
  }

  /** Whole seconds, in nanoseconds. */
  lemma SecondsAreWhole(ttl: real) returns (s: int)
    ensures Seconds(ttl) == 1000000000 * s
    ensures if ttl >= 0.0 then 0.0 <= s as real <= ttl < s as real + 1.0 else s as real - 1.0 < ttl <= s as real <= 0.0
  {
    s := if ttl >= 0.0 then ttl.Floor else -((-ttl).Floor);
  }

  /** The header starts like a reserved prefix, in upper or lower case. */
  predicate StartsLike(header: string, prefix: string) {
    |header| >= |prefix| && forall i :: 0 <= i < |prefix| ==>
      header[i] == prefix[i] || (header[i] < 'a' && header[i] as int + 32 == prefix[i] as int)
  }

  /**
   * A message is valid exactly if nothing is missing, its priority is one of five, it lives no longer than 31 days, its
   * time has not run out, and it sets no header of Choria or NATS.
   */
  lemma ValidExactly(m: Message, now: int)
    ensures Validate(m, now).Ok? <==>
      && m.subject != "" && m.payload != "" && m.sender != "" && m.created != 0 && m.ttl != 0.0
      && m.priority in {0, 1, 2, 3, 4} && m.ttl <= 31.0 * 24.0 * 3600.0 && now <= m.created + Seconds(m.ttl)
      && forall h :: h in m.headers ==> !StartsLike(h, "choria") && !StartsLike(h, "nats")
  {
    forall h ensures IsReserved(h) <==> StartsLike(h, "choria") || StartsLike(h, "nats") {
      ReservedExactly(h);
    }
  }

  lemma ReservedExactly(header: string)
    ensures IsReserved(header) <==> StartsLike(header, "choria") || StartsLike(header, "nats")
  {
    LikeExactly(header, "choria");
    LikeExactly(header, "nats");
  }

  lemma LikeExactly(header: string, prefix: string)
    requires forall i :: 0 <= i < |prefix| ==> 'a' <= prefix[i] <= 'z'
    ensures HasPrefixFold(header, prefix) <==> StartsLike(header, prefix)
  {
  }

  /** Signing: the seed file setting, whether the file is there, the signature of the payload, and the token to add. */
  datatype Signing = Signing(seed: string, seedExists: bool, signature: Result<string>, token: Result<string>)

  datatype NatsMessage = NatsMessage(subject: string, headers: map<string, string>, data: string)

  function Digits(n: nat): string {
    if n < 10 then ["0123456789"[n]] else Digits(n / 10) + ["0123456789"[n % 10]]
  }

  function Number(n: int): string {
    if n < 0 then "-" + Digits(-n) else Digits(n)
  }

  function AddIf(headers: map<string, string>, present: bool, name: string, value: string): map<string, string> {
    if present then headers[name := value] else headers
  }

  function ChoriaHeaders(m: Message): map<string, string> {
    var h := m.headers["Nats-Msg-Id" := m.id]["Choria-Priority" := Number(m.priority)]
      ["Choria-Created" := Number(m.created)]["Choria-Sender" := m.sender];
    var h := AddIf(h, m.reliable, "Choria-Reliable", "1");
    var h := AddIf(h, m.tries > 0, "Choria-Tries", Number(m.tries));
    AddIf(h, m.identity != "", "Choria-Identity", m.identity)
  }

  function ToNats(m: Message, prefix: string, now: int, s: Signing): Result<NatsMessage> {
    match Validate(m, now)
    case Err(e) => Err(e)
    case Ok(_) =>
      if m.tries >= m.maxTries then Err(MaxTries)
      else
        var h := ChoriaHeaders(m);
        if !m.sign then Ok(NatsMessage(prefix + m.subject, h, m.payload))
        else if s.seed == "" then Err(SeedNotSet)
        else if !s.seedExists then Err(SeedNotFound)
        else if s.signature.Err? || s.token.Err? then Err(SignatureFailed)
        else Ok(NatsMessage(
          prefix + m.subject,
          AddIf(h, s.token.value != "", "Choria-Token", s.token.value)["Choria-Signature" := s.signature.value],
          m.payload))
  }

  /** What a message needs to become a NATS message: it is valid, has a try left, and can be signed if it must be. */
  predicate Converts(m: Message, now: int, s: Signing) {
    && Validate(m, now).Ok? && m.tries < m.maxTries
    && (m.sign ==> s.seed != "" && s.seedExists && s.signature.Ok? && s.token.Ok?)
  }

  lemma AcceptedExactly(m: Message, prefix: string, now: int, s: Signing)
    ensures ToNats(m, prefix, now, s).Ok? <==> Converts(m, now, s)
  {
  }

  /**
   * A message that is accepted once is accepted exactly until its time to live is over, whatever time it is asked:
   * nothing else about it expires, and once rejected it stays rejected.
   */
  lemma AcceptedUntilItExpires(m: Message, prefix: string, s: Signing, before: int, now: int)
    requires ToNats(m, prefix, before, s).Ok?
    ensures ToNats(m, prefix, now, s).Ok? <==> now - m.created <= Seconds(m.ttl)
    ensures ToNats(m, prefix, now, s).Ok? ==> ToNats(m, prefix, now, s) == ToNats(m, prefix, before, s)
    ensures ToNats(m, prefix, now, s).Err? ==> ToNats(m, prefix, now, s) == Err(Expired)
  {
  }

  // ---------------------------------------------------------------------------------------------------------
  // Nothing is lost in the conversion

  /** What a receiver can tell about a message. */
  datatype Envelope = Envelope(
    id: string, subject: string, payload: string, reliable: bool, priority: int, created: int,
    tries: int, sender: string, identity: string, headers: map<string, string>)

  function Value(digits: string): nat {
    if digits == "" then 0
    else Value(digits[..|digits| - 1]) * 10 + DigitValue(digits[|digits| - 1])
  }

  function DigitValue(c: char): nat {
    if '0' <= c <= '9' then c as int - '0' as int else 0
  }

  function Parse(text: string): int {
    if text != "" && text[0] == '-' then 0 - Value(text[1..]) as int else Value(text)
  }

  lemma {:induction false} DigitsRoundTrip(n: nat)
    ensures Digits(n) != "" && Digits(n)[0] != '-' && Value(Digits(n)) == n
  {
    var d := ["0123456789"[n % 10]];
    assert DigitValue(d[0]) == n % 10;
    if n < 10 {
      assert Digits(n) == d && d[..0] == "";
    } else {
      DigitsRoundTrip(n / 10);
      assert Digits(n)[..|Digits(n)| - 1] == Digits(n / 10);
    }
  }

  /** A number that is not negative is written in plain digits, without a leading zero. */
  lemma {:induction false} DigitsArePlain(n: nat)
    ensures forall i :: 0 <= i < |Digits(n)| ==> '0' <= Digits(n)[i] <= '9'
    ensures Digits(n) != "" && (n > 0 ==> Digits(n)[0] != '0') && Number(n) == Digits(n)
  {
    if n >= 10 {
      DigitsArePlain(n / 10);
    }
  }

  lemma NumberRoundTrip(n: int)
    ensures Parse(Number(n)) == n
  {
    hide Digits, Value;
    if n < 0 {
      DigitsRoundTrip(-n);
      assert Number(n)[1..] == Digits(-n);
    } else {
      DigitsRoundTrip(n);
    }
  }

  function HeaderOr(headers: map<string, string>, name: string, default: string): string {
    if name in headers then headers[name] else default
  }

  /** The headers that a submitter may set. */
  function OwnHeaders(headers: map<string, string>): map<string, string> {
    map h | h in headers && !IsReserved(h) :: headers[h]
  }

  function Received(n: NatsMessage, prefix: string): Envelope
    requires |prefix| <= |n.subject|
  {
    Envelope(
      HeaderOr(n.headers, "Nats-Msg-Id", ""), n.subject[|prefix|..], n.data, "Choria-Reliable" in n.headers,
      Parse(HeaderOr(n.headers, "Choria-Priority", "")), Parse(HeaderOr(n.headers, "Choria-Created", "")),
      Parse(HeaderOr(n.headers, "Choria-Tries", "0")), HeaderOr(n.headers, "Choria-Sender", ""),
      HeaderOr(n.headers, "Choria-Identity", ""), OwnHeaders(n.headers))
  }

  function Sent(m: Message): Envelope {
    Envelope(m.id, m.subject, m.payload, m.reliable, m.priority, m.created, m.tries, m.sender, m.identity, m.headers)
  }

  const ChoriaHeaderNames: seq<string> := [
    "Nats-Msg-Id", "Choria-Priority", "Choria-Created", "Choria-Sender", "Choria-Reliable", "Choria-Tries",
    "Choria-Identity", "Choria-Token", "Choria-Signature"]

  lemma ChoriaHeadersAreReserved(i: nat)
    requires i < |ChoriaHeaderNames|
    ensures IsReserved(ChoriaHeaderNames[i])
  {
    var name := ChoriaHeaderNames[i];
    if i == 0 {
      assert HasPrefixFold(name, "nats");
    } else {
      assert HasPrefixFold(name, "choria");
    }
  }

  /** All headers that the conversion adds are reserved, so they neither replace nor imitate those of the submitter. */
  lemma OwnHeadersSurvive(headers: map<string, string>, name: string, value: string)
    requires IsReserved(name)
    ensures OwnHeaders(headers[name := value]) == OwnHeaders(headers)
  {
  }

  lemma NoOwnReserved(headers: map<string, string>)
    requires !exists h :: h in headers && IsReserved(h)
    ensures OwnHeaders(headers) == headers
    ensures forall i :: 0 <= i < |ChoriaHeaderNames| ==> ChoriaHeaderNames[i] !in headers
  {
    forall i | 0 <= i < |ChoriaHeaderNames| ensures ChoriaHeaderNames[i] !in headers {
      ChoriaHeadersAreReserved(i);
    }
  }

  lemma AddedHeaderSurvives(headers: map<string, string>, present: bool, i: nat, value: string)
    requires i < |ChoriaHeaderNames|
    ensures OwnHeaders(AddIf(headers, present, ChoriaHeaderNames[i], value)) == OwnHeaders(headers)
  {
    ChoriaHeadersAreReserved(i);
    OwnHeadersSurvive(headers, ChoriaHeaderNames[i], value);
  }

  lemma OwnChoriaHeaders(m: Message)
    ensures OwnHeaders(ChoriaHeaders(m)) == OwnHeaders(m.headers)
  {
    hide OwnHeaders, Number;
    var h1 := AddIf(m.headers, true, "Nats-Msg-Id", m.id);
    AddedHeaderSurvives(m.headers, true, 0, m.id);
    var h2 := AddIf(h1, true, "Choria-Priority", Number(m.priority));
    AddedHeaderSurvives(h1, true, 1, Number(m.priority));
    var h3 := AddIf(h2, true, "Choria-Created", Number(m.created));
    AddedHeaderSurvives(h2, true, 2, Number(m.created));
    var h4 := AddIf(h3, true, "Choria-Sender", m.sender);
    AddedHeaderSurvives(h3, true, 3, m.sender);
    var h5 := AddIf(h4, m.reliable, "Choria-Reliable", "1");
    AddedHeaderSurvives(h4, m.reliable, 4, "1");
    var h6 := AddIf(h5, m.tries > 0, "Choria-Tries", Number(m.tries));
    AddedHeaderSurvives(h5, m.tries > 0, 5, Number(m.tries));
    AddedHeaderSurvives(h6, m.identity != "", 6, m.identity);
  }

  predicate NoneOfChoria(headers: map<string, string>) {
    && "Choria-Reliable" !in headers && "Choria-Tries" !in headers && "Choria-Identity" !in headers
    && "Choria-Token" !in headers && "Choria-Signature" !in headers
  }

  lemma ChoriaHeadersTell(m: Message)
    requires NoneOfChoria(m.headers)
    ensures var h := ChoriaHeaders(m);
      && "Choria-Token" !in h && "Choria-Signature" !in h
      && HeaderOr(h, "Nats-Msg-Id", "") == m.id && HeaderOr(h, "Choria-Sender", "") == m.sender
      && HeaderOr(h, "Choria-Priority", "") == Number(m.priority)
      && HeaderOr(h, "Choria-Created", "") == Number(m.created)
      && ("Choria-Reliable" in h <==> m.reliable)
      && HeaderOr(h, "Choria-Tries", "0") == (if m.tries > 0 then Number(m.tries) else "0")
      && HeaderOr(h, "Choria-Identity", "") == m.identity
  {
    hide Number;
  }

  /** Signing adds two headers and changes nothing a receiver reads elsewhere. */
  lemma SigningKeeps(h: map<string, string>, token: string, signature: string, name: string, default: string)
    requires name != "Choria-Token" && name != "Choria-Signature"
    ensures var signed := AddIf(h, token != "", "Choria-Token", token)["Choria-Signature" := signature];
      && HeaderOr(signed, name, default) == HeaderOr(h, name, default) && (name in signed <==> name in h)
      && OwnHeaders(signed) == OwnHeaders(h)
  {
    AddedHeaderSurvives(h, token != "", 7, token);
    AddedHeaderSurvives(AddIf(h, token != "", "Choria-Token", token), true, 8, signature);
  }

  /** A receiver can tell everything about an accepted message, and no header of the submitter gets in the way. */
  lemma EnvelopeRoundTrip(m: Message, prefix: string, now: int, s: Signing)
    requires ToNats(m, prefix, now, s).Ok?
    ensures var n := ToNats(m, prefix, now, s).value;
      && |prefix| <= |n.subject| && Received(n, prefix) == Sent(m)
      && ("Choria-Signature" in n.headers <==> m.sign)
      && (m.sign ==> n.headers["Choria-Signature"] == s.signature.value)
  {
    hide ChoriaHeaders, Number, OwnHeaders, Parse, HeaderOr, IsReserved, NoneOfChoria;
    var n := ToNats(m, prefix, now, s).value;
    assert n.subject == prefix + m.subject && n.data == m.payload;
    assert !exists h :: h in m.headers && IsReserved(h);
    NoOwnReserved(m.headers);
    AcceptedHasNoneOfChoria(m.headers);
    OwnChoriaHeaders(m);
    ChoriaHeadersTell(m);
    NumberRoundTrip(m.priority);
    NumberRoundTrip(m.created);
    NumberRoundTrip(m.tries);
    NumberOfZero();
    HeadersAfterSigning(m, ChoriaHeaders(m), n, s);
  }

  lemma AcceptedHasNoneOfChoria(headers: map<string, string>)
    requires forall i :: 0 <= i < |ChoriaHeaderNames| ==> ChoriaHeaderNames[i] !in headers
    ensures NoneOfChoria(headers)
  {
    assert ChoriaHeaderNames[4] == "Choria-Reliable" && ChoriaHeaderNames[5] == "Choria-Tries";
    assert ChoriaHeaderNames[6] == "Choria-Identity" && ChoriaHeaderNames[7] == "Choria-Token";
    assert ChoriaHeaderNames[8] == "Choria-Signature";
  }

  /** What is read from a message is what was there before signing. */
  lemma HeadersAfterSigning(m: Message, h: map<string, string>, n: NatsMessage, s: Signing)
    requires m.sign ==> s.signature.Ok? && s.token.Ok?
    requires n.headers == if !m.sign then h else
      AddIf(h, s.token.value != "", "Choria-Token", s.token.value)["Choria-Signature" := s.signature.value]
    ensures OwnHeaders(n.headers) == OwnHeaders(h)
    ensures forall name, default :: name != "Choria-Token" && name != "Choria-Signature" ==>
      HeaderOr(n.headers, name, default) == HeaderOr(h, name, default)
    ensures "Choria-Reliable" in n.headers <==> "Choria-Reliable" in h
  {
    if m.sign {
      SigningKeeps(h, s.token.value, s.signature.value, "Choria-Reliable", "");
      forall name, default | name != "Choria-Token" && name != "Choria-Signature"
        ensures HeaderOr(n.headers, name, default) == HeaderOr(h, name, default)
      {
        SigningKeeps(h, s.token.value, s.signature.value, name, default);
      }
    }
  }

  lemma NumberOfZero()
    ensures Parse("0") == 0
  {
    assert "0"[..0] == "";
  }
}
