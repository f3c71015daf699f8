/** The Auth0 custom authorizer: it extracts the bearer token from the
    Authorization header, selects the signing certificate from the JSON Web
    Key Set by key id, wraps it in PEM form, and answers with an Allow or
    Deny policy depending on whether the token verified.

    Decoding the token header, fetching the key set over HTTP and checking
    the RS256 signature are foreign calls; their outcomes are parameters. */
module Authorizer {
  import opened Base
  import opened Strings

  // ----- Bearer header -----

  /** Lower-casing of one character. Only ASCII letters are mapped: no other
      character lowers to a character of "bearer ", so the prefix test below
      agrees with JavaScript's full `toLowerCase`. */
  function ToLowerAscii(c: char): (r: char)
    ensures r == ' ' <==> c == ' '
    ensures 'a' <= r <= 'z' ==> c != ' '
  {
    if 'A' <= c <= 'Z' then (c as int + 32) as char else c
  }

  /** `toLowerCase`, restricted to ASCII letters: the same length, each
      character lowered, and no ASCII capital left. */
  function LowerCase(s: string): (r: string)
    ensures |r| == |s|
    ensures forall i :: 0 <= i < |s| ==> r[i] == ToLowerAscii(s[i])
    ensures forall i :: 0 <= i < |r| ==> !('A' <= r[i] <= 'Z')
  {
    seq(|s|, i requires 0 <= i < |s| => ToLowerAscii(s[i]))
  }

  predicate StartsWith(s: string, prefix: string)
  {
    |prefix| <= |s| && s[..|prefix|] == prefix
  }

  /** The authentication scheme of section 2.1 of RFC 6750, followed by the
      space, as the source compares it after lower-casing the header. */
  const BearerPrefix: string := "bearer "

  /** A JavaScript runtime `TypeError` (a property read on `null` or
      `undefined`). Its message text is engine-specific and is not modelled;
      every such throw is this one value. */
  const TypeErrorThrown: string := "TypeError"

  const NoHeaderMessage: string := "No authentication header"
  const InvalidHeaderMessage: string := "Invalid authentication header"

  /** `authHeader.toLowerCase().startsWith('bearer ')`: the first seven
      characters spell "bearer " in any letter case, so the seventh is a
      space. */
  function IsBearer(header: string): (r: bool)
    ensures r <==> |header| >= 7 && LowerCase(header[..7]) == BearerPrefix
    ensures r ==> header[6] == ' '
  {
    assert |header| >= 7 ==> LowerCase(header)[..7] == LowerCase(header[..7]);
    StartsWith(LowerCase(header), BearerPrefix)
  }

  /** A header that passes the test has a space at position 6 and none
      before it, so splitting at spaces gives the scheme and then the fields
      of the rest. */
  lemma BearerSplit(header: string)
    requires IsBearer(header)
    ensures Split(header, ' ') == [header[..6]] + Split(header[7..], ' ')
    ensures |Split(header, ' ')| >= 2
  {
    var lower := LowerCase(header);
    assert lower[..7] == BearerPrefix;
    forall i | 0 <= i < 6 ensures header[i] != ' ' {
      assert lower[i] == BearerPrefix[i];
    }
    assert lower[6] == ' ';
    assert header[6] == ' ';
    assert header == header[..6] + [' '] + header[7..];
    SplitConcat(header[..6], header[7..], ' ');
    SplitNoSeparator(header[..6], ' ');
  }

  /** `getToken`: an absent or empty header and a header whose lower-cased
      form does not start with "bearer " are rejected; otherwise the second
      space-separated field is the token. */
  function GetToken(authHeader: Option<string>): (r: Result<string, string>)
    ensures authHeader.None? || authHeader.value == [] <==> r == Err(NoHeaderMessage)
    ensures r == Err(InvalidHeaderMessage) <==> authHeader.Some? && authHeader.value != [] && !IsBearer(authHeader.value)
    ensures r.Ok? <==> authHeader.Some? && IsBearer(authHeader.value)
  {
    if authHeader.None? || authHeader.value == [] then Err(NoHeaderMessage)
    else if !IsBearer(authHeader.value) then Err(InvalidHeaderMessage)
    else
      BearerSplit(authHeader.value);
      Ok(Split(authHeader.value, ' ')[1])
  }

  /** The token is the text after "bearer " up to the next space, whatever
      the case of the scheme. */
  lemma GetTokenField(header: string)
    requires IsBearer(header)
    ensures var r := GetToken(Some(header));
      && r.Ok?
      && 7 + |r.value| <= |header|
      && header[7..7 + |r.value|] == r.value
      && ' ' !in r.value
      && (7 + |r.value| < |header| ==> header[7 + |r.value|] == ' ')
  {
    BearerSplit(header);
    SplitFirstField(header[7..], ' ');
  }

  /** For "Bearer " (in any case) followed by a token without spaces, the
      token comes back unchanged. */
  lemma GetTokenRoundTrip(scheme: string, token: string)
    requires |scheme| == 7 && LowerCase(scheme) == BearerPrefix
    requires ' ' !in token
    ensures GetToken(Some(scheme + token)) == Ok(token)
  {
    var header := scheme + token;
    assert LowerCase(header)[..7] == LowerCase(scheme);
    assert header[7..] == token;
    BearerSplit(header);
    SplitNoSeparator(token, ' ');
  }

  // ----- PEM wrapping -----

  /** The characters the regular-expression `.` does not match. */
  predicate IsLineTerminator(c: char)
  {
    c == '\n' || c == '\r' || c == '\U{2028}' || c == '\U{2029}'
  }

  predicate TerminatorFree(s: string)
  {
    forall i :: 0 <= i < |s| ==> !IsLineTerminator(s[i])
  }

  /** The length of the longest match of `.{1,limit}` at the start of `s`. */
  function RunLength(s: string, limit: nat): (n: nat)
    ensures n <= limit && n <= |s|
    ensures TerminatorFree(s[..n])
    ensures n < limit && n < |s| ==> IsLineTerminator(s[n])
    decreases limit
  {
    if limit == 0 || s == [] || IsLineTerminator(s[0]) then 0
    else
      var k := RunLength(s[1..], limit - 1);
      assert s[..1 + k] == [s[0]] + s[1..][..k];
      1 + k
  }

  /** `cert.match(/.{1,64}/g)`: the successive greedy matches, skipping the
      characters `.` cannot match. */
  function PemLines(s: string): (r: seq<string>)
    ensures forall i :: 0 <= i < |r| ==> 1 <= |r[i]| <= 64 && TerminatorFree(r[i])
    decreases |s|
  {
    if s == [] then []
    else if IsLineTerminator(s[0]) then PemLines(s[1..])
    else
      var n := RunLength(s, 64);
      [s[..n]] + PemLines(s[n..])
  }

  const PemHeader: string := "-----BEGIN CERTIFICATE-----\n"
  const PemFooter: string := "\n-----END CERTIFICATE-----\n"

  /** `certToPEM`: the certificate body in lines of at most 64 characters
      between the header and footer lines of section 2 of RFC 7468. When
      nothing matches, `match` yields null and the call throws. The text
      between header and footer, split at its line breaks, is exactly the
      sequence of matches, so each of its lines has 1 to 64 characters. */
  function CertToPem(cert: string): (r: Result<string, string>)
    ensures r.Err? <==> PemLines(cert) == []
    ensures r.Err? ==> r.error == TypeErrorThrown
    ensures r.Ok? ==> StartsWith(r.value, PemHeader)
    ensures r.Ok? ==> |r.value| >= |PemHeader| + |PemFooter| && r.value[|r.value| - |PemFooter|..] == PemFooter
    ensures r.Ok? ==> Split(r.value[|PemHeader|..|r.value| - |PemFooter|], '\n') == PemLines(cert)
  {
    var lines := PemLines(cert);
    if lines == [] then Err(TypeErrorThrown)
    else
      var body := Join(lines, "\n");
      var pem := PemHeader + body + PemFooter;
      assert pem[..|PemHeader|] == PemHeader;
      assert pem[|pem| - |PemFooter|..] == PemFooter;
      assert pem[|PemHeader|..|pem| - |PemFooter|] == body;
      assert forall i :: 0 <= i < |lines| ==> '\n' !in lines[i];
      SplitJoin(lines, '\n');
      Ok(pem)
  }

  function Concat(parts: seq<string>): string
    decreases |parts|
  {
    if parts == [] then "" else parts[0] + Concat(parts[1..])
  }

  /** For a certificate without line breaks: every line but the last has
      exactly 64 characters, the last has 1 to 64, and the lines put back
      together are the certificate. */
  lemma {:induction false} PemLinesShape(cert: string)
    requires TerminatorFree(cert)
    ensures var lines := PemLines(cert);
      && Concat(lines) == cert
      && (forall i :: 0 <= i < |lines| - 1 ==> |lines[i]| == 64)
      && (cert != [] <==> lines != [])
    decreases |cert|
  {
    if cert != [] {
      var n := RunLength(cert, 64);
      assert n == 64 || n == |cert|;
      assert TerminatorFree(cert[n..]);
      PemLinesShape(cert[n..]);
      assert cert[..n] + cert[n..] == cert;
    }
  }

  /** Removes every newline character. */
  function DropNewlines(s: string): (r: string)
    decreases |s|
  {
    if s == [] then "" else (if s[0] == '\n' then "" else [s[0]]) + DropNewlines(s[1..])
  }

  lemma {:induction false} DropNewlinesAppend(a: string, b: string)
    ensures DropNewlines(a + b) == DropNewlines(a) + DropNewlines(b)
    decreases |a|
  {
    if a == [] {
      assert a + b == b;
    } else {
      assert (a + b)[1..] == a[1..] + b;
      DropNewlinesAppend(a[1..], b);
    }
  }

  lemma {:induction false} DropNewlinesFree(s: string)
    requires TerminatorFree(s)
    ensures DropNewlines(s) == s
    decreases |s|
  {
    if s != [] {
      DropNewlinesFree(s[1..]);
      assert [s[0]] + s[1..] == s;
    }
  }

  lemma {:induction false} DropNewlinesJoin(lines: seq<string>)
    requires forall i :: 0 <= i < |lines| ==> TerminatorFree(lines[i])
    ensures DropNewlines(Join(lines, "\n")) == Concat(lines)
    decreases |lines|
  {
    if |lines| == 1 {
      DropNewlinesFree(lines[0]);
      assert Concat(lines) == lines[0] + Concat([]);
    } else if |lines| > 1 {
      DropNewlinesJoin(lines[1..]);
      DropNewlinesFree(lines[0]);
      DropNewlinesAppend(lines[0] + "\n", Join(lines[1..], "\n"));
      DropNewlinesAppend(lines[0], "\n");
      assert DropNewlines("\n") == "";
    }
  }

  /** The PEM body between header and footer, with the line breaks removed. */
  function PemBody(pem: string): string
  {
    if |pem| < |PemHeader| + |PemFooter| then ""
    else DropNewlines(pem[|PemHeader|..|pem| - |PemFooter|])
  }

  /** Round trip: the body of the PEM text, without its line breaks, is the
      certificate, for every non-empty certificate without line breaks. */
  lemma PemRoundTrip(cert: string)
    requires cert != [] && TerminatorFree(cert)
    ensures CertToPem(cert).Ok?
    ensures PemBody(CertToPem(cert).value) == cert
  {
    var lines := PemLines(cert);
    PemLinesShape(cert);
    var joined := Join(lines, "\n");
    var pem := PemHeader + joined + PemFooter;
    assert pem[|PemHeader|..|pem| - |PemFooter|] == joined;
    DropNewlinesJoin(lines);
  }

  // ----- Signing key -----

  /** A key of the JSON Web Key Set: its id (possibly absent) and its
      certificate chain. */
  datatype Jwk = Jwk(kid: Option<string>, x5c: seq<string>)

  /** `keys.find(key => key.kid === keyId)`, as a position. */
  function FindKey(keys: seq<Jwk>, kid: Option<string>): (r: Option<nat>)
    ensures r.None? <==> forall i :: 0 <= i < |keys| ==> keys[i].kid != kid
    ensures r.Some? ==> r.value < |keys| && keys[r.value].kid == kid
    ensures r.Some? ==> forall j :: 0 <= j < r.value ==> keys[j].kid != kid
    decreases |keys|
  {
    if keys == [] then None
    else if keys[0].kid == kid then Some(0)
    else
      match FindKey(keys[1..], kid)
      case None => None
      case Some(i) => Some(i + 1)
  }

  /** Position `i` holds the first key with id `kid`. */
  predicate FirstMatch(keys: seq<Jwk>, kid: Option<string>, i: int)
  {
    && 0 <= i < |keys|
    && keys[i].kid == kid
    && forall j :: 0 <= j < i ==> keys[j].kid != kid
  }

  /** `signingKey.x5c[0]` of the first key with the token's key id. With no
      such key, reading `x5c` of `undefined` throws. With an empty chain,
      `x5c[0]` is `undefined` and the throw happens one step later, when
      `certToPEM` calls `match` on it; the outcome is the same TypeError. */
  function SigningCert(keys: seq<Jwk>, kid: Option<string>): (r: Result<string, string>)
    ensures r.Err? ==> r.error == TypeErrorThrown
    ensures r.Ok? <==> exists i :: FirstMatch(keys, kid, i) && |keys[i].x5c| > 0
    ensures r.Ok? ==> exists i :: FirstMatch(keys, kid, i) && |keys[i].x5c| > 0 && r.value == keys[i].x5c[0]
  {
    match FindKey(keys, kid)
    case None => Err(TypeErrorThrown)
    case Some(i) =>
      if |keys[i].x5c| == 0 then Err(TypeErrorThrown)
      else Ok(keys[i].x5c[0])
  }

  // ----- The policy -----

  datatype JwtHeader = JwtHeader(kid: Option<string>)

  datatype JwtPayload = JwtPayload(sub: string)

  /** What the foreign calls give for this request: the decoded token header
      (`None` when `decode` returns null), the fetched key set, and the
      signature check's verdict. */
  datatype Foreign = Foreign(
    decoded: Option<JwtHeader>,
    jwks: Result<seq<Jwk>, string>,
    verdict: Result<JwtPayload, string>)

  /** `verifyToken`: token, then certificate, then the signature check; the
      first failure is thrown. It resolves to the signature check's payload
      exactly when every earlier step succeeds; header errors keep their
      messages, and a token that does not decode throws a TypeError. */
  function VerifyToken(authHeader: Option<string>, f: Foreign): (r: Result<JwtPayload, string>)
    ensures GetToken(authHeader).Err? ==> r == Err(GetToken(authHeader).error)
    ensures GetToken(authHeader).Ok? && f.decoded.None? ==> r == Err(TypeErrorThrown)
    ensures r.Ok? <==>
      && GetToken(authHeader).Ok? && f.decoded.Some? && f.jwks.Ok?
      && SigningCert(f.jwks.value, f.decoded.value.kid).Ok?
      && CertToPem(SigningCert(f.jwks.value, f.decoded.value.kid).value).Ok?
      && f.verdict.Ok?
    ensures r.Ok? ==> r == f.verdict
  {
    match GetToken(authHeader)
    case Err(e) => Err(e)
    case Ok(_) =>
      match f.decoded
      case None => Err(TypeErrorThrown)
      case Some(header) =>
        match f.jwks
        case Err(e) => Err(e)
        case Ok(keys) =>
          match SigningCert(keys, header.kid)
          case Err(e) => Err(e)
          case Ok(cert) =>
            match CertToPem(cert)
            case Err(e) => Err(e)
            case Ok(_) => f.verdict
  }

  datatype Effect = Allow | Deny

  datatype Statement = Statement(action: string, effect: Effect, resource: string)

  datatype PolicyDocument = PolicyDocument(version: string, statement: seq<Statement>)

  datatype AuthorizerResult = AuthorizerResult(principalId: string, policyDocument: PolicyDocument)

  /** The policy literal of both branches: one statement allowing or
      denying `execute-api:Invoke` on every resource, version 2012-10-17. */
  function PolicyFor(principalId: string, effect: Effect): (r: AuthorizerResult)
    ensures r.principalId == principalId
    ensures r.policyDocument.version == "2012-10-17"
    ensures r.policyDocument.statement == [Statement("execute-api:Invoke", effect, "*")]
  {
    AuthorizerResult(principalId,
      PolicyDocument("2012-10-17", [Statement("execute-api:Invoke", effect, "*")]))
  }

  /** `handler`: Allow for the token's subject when verification succeeds,
      Deny for "user" whenever anything throws. Either way the policy holds
      the one statement `execute-api:Invoke` on every resource, version
      2012-10-17. */
  function Handler(authHeader: Option<string>, f: Foreign): (r: AuthorizerResult)
    ensures |r.policyDocument.statement| == 1
    ensures r.policyDocument.version == "2012-10-17"
    ensures r.policyDocument.statement[0].action == "execute-api:Invoke"
    ensures r.policyDocument.statement[0].resource == "*"
    ensures r.policyDocument.statement[0].effect == Allow <==> VerifyToken(authHeader, f).Ok?
    ensures VerifyToken(authHeader, f).Ok? ==> r.principalId == VerifyToken(authHeader, f).value.sub
    ensures VerifyToken(authHeader, f).Err? ==> r.principalId == "user"
  {
    match VerifyToken(authHeader, f)
    case Ok(payload) => PolicyFor(payload.sub, Allow)
    case Err(_) => PolicyFor("user", Deny)
  }

  /** Allow needs all of: a bearer header, a decodable token, a key set with
      a key carrying the token's key id and a certificate, and a passing
      signature check. A missing or non-bearer header is always denied. */
  lemma AllowNeedsEverything(authHeader: Option<string>, f: Foreign)
    requires Handler(authHeader, f).policyDocument.statement[0].effect == Allow
    ensures authHeader.Some? && IsBearer(authHeader.value)
    ensures f.decoded.Some? && f.jwks.Ok? && f.verdict.Ok?
    ensures exists i :: (0 <= i < |f.jwks.value| && f.jwks.value[i].kid == f.decoded.value.kid
      && |f.jwks.value[i].x5c| > 0)
  {
  }
}
