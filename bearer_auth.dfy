/**
 * Session tokens and the authenticateToken middleware of server/server.js.
 *
 * A token is an abstract record: the signed payload (mobileNumber, iat, exp)
 * and the key it was signed with. Signing and decoding a compact token string
 * belong to the jsonwebtoken library; decoding is given to the middleware as
 * a function from the token text to the record it carries, if any.
 */
module BearerAuth {
  import opened Wrappers

  /** The process-wide signing key of server/server.js. */
  const JwtSecret: string := "your-super-secret-key-for-krishi-mitra"

  /** The '1h' validity window, in seconds. */
  const TokenLifetimeSeconds: int := 3600

  /** A signed payload; issuedAt and expiresAt are in whole seconds, as jsonwebtoken writes iat and exp. */
  datatype Token = Token(mobileNumber: string, issuedAt: int, expiresAt: int, key: string)

  /** jwt.sign({mobileNumber}, JwtSecret, {expiresIn: '1h'}) at nowMs milliseconds. */
  function Sign(mobileNumber: string, nowMs: int): (t: Token)
    ensures t.mobileNumber == mobileNumber && t.key == JwtSecret
    ensures t.issuedAt * 1000 <= nowMs < t.issuedAt * 1000 + 1000
    ensures t.expiresAt == t.issuedAt + TokenLifetimeSeconds
  {
    var iat := nowMs / 1000;
    Token(mobileNumber, iat, iat + TokenLifetimeSeconds, JwtSecret)
  }

  /** jwt.verify's checks on a decoded token: the key, then exp against the clock in whole seconds. */
  function Verifies(t: Token, nowMs: int): (ok: bool)
    ensures ok <==> t.key == JwtSecret && nowMs < t.expiresAt * 1000
  {
    t.key == JwtSecret && nowMs / 1000 < t.expiresAt
  }

  // ---------------------------------------------------------------- header parsing

  /** String.prototype.split(' '): the pieces between single spaces, empty ones included. */
  function Split(s: string): (parts: seq<string>)
    ensures |parts| >= 1
    ensures forall i :: 0 <= i < |parts| ==> ' ' !in parts[i]
    ensures |parts| == 1 <==> ' ' !in s
    ensures ' ' !in s ==> parts == [s]
  {
    if s == [] then [[]]
    else
      var rest := Split(s[1..]);
      if s[0] == ' ' then [[]] + rest
      else
        assert ' ' !in s ==> [s[0]] + s[1..] == s;
        [[s[0]] + rest[0]] + rest[1..]
  }

  /** The pieces put back together with single spaces. */
  function Join(parts: seq<string>): string
    requires |parts| >= 1
  {
    if |parts| == 1 then parts[0] else parts[0] + " " + Join(parts[1..])
  }

  /** Splitting loses nothing: joining the pieces gives back the header. */
  lemma {:induction false} JoinSplit(s: string)
    ensures Join(Split(s)) == s
  {
    if s != [] {
      var rest := Split(s[1..]);
      JoinSplit(s[1..]);
      if s[0] == ' ' {
        assert Join([[]] + rest) == " " + Join(rest);
      } else if |rest| == 1 {
        assert Split(s) == [[s[0]] + rest[0]];
      } else {
        assert Join(Split(s)) == [s[0]] + rest[0] + " " + Join(rest[1..]);
        assert Join(rest) == rest[0] + " " + Join(rest[1..]);
      }
    }
  }

  /** A word without spaces, a space, then the rest: the word is the first piece. */
  lemma {:induction false} SplitAfterWord(w: string, rest: string)
    requires ' ' !in w
    ensures Split(w + " " + rest) == [w] + Split(rest)
  {
    if w == [] {
      assert (w + " " + rest)[1..] == rest;
    } else {
      assert (w + " " + rest)[1..] == w[1..] + " " + rest;
      SplitAfterWord(w[1..], rest);
      assert [w[0]] + w[1..] == w;
    }
  }

  /**
   * `authHeader && authHeader.split(' ')[1]`: None stands for undefined. An
   * empty header is falsy, so the expression yields the empty string itself.
   */
  function BearerToken(header: Option<string>): (token: Option<string>)
    ensures header.None? ==> token.None?
    ensures header == Some("") ==> token == Some("")
    ensures header.Some? && header.value != "" ==> (token.Some? <==> ' ' in header.value)
    ensures token.Some? ==> ' ' !in token.value
  {
    match header
    case None => None
    case Some(h) =>
      if h == "" then Some("")
      else
        var parts := Split(h);
        if |parts| >= 2 then Some(parts[1]) else None
  }

  /** A "Bearer <token>" header yields the token, whatever the scheme word. */
  lemma BearerHeaderToken(scheme: string, token: string)
    requires ' ' !in scheme && ' ' !in token
    ensures BearerToken(Some(scheme + " " + token)) == Some(token)
  {
    SplitAfterWord(scheme, token);
  }

  /** Whatever the scheme word, the token is the second piece: the text up to the next space. */
  lemma BearerTokenValue(scheme: string, rest: string)
    requires ' ' !in scheme
    ensures BearerToken(Some(scheme + " " + rest)) == Some(Split(rest)[0])
  {
    SplitAfterWord(scheme, rest);
  }

  /** "Bearer a b" yields "a"; "Bearer  a" (two spaces) yields the empty token. */
  lemma BearerTokenExamples()
    ensures BearerToken(Some("Bearer a b")) == Some("a")
    ensures BearerToken(Some("Bearer  a")) == Some("")
  {
    BearerTokenValue("Bearer", "a b");
    assert "Bearer" + " " + "a b" == "Bearer a b";
    SplitAfterWord("a", "b");
    assert "a" + " " + "b" == "a b";
    BearerTokenValue("Bearer", " a");
    assert "Bearer" + " " + " a" == "Bearer  a";
    SplitAfterWord("", "a");
    assert "" + " " + "a" == " a";
  }

  // ---------------------------------------------------------------- the middleware

  /** What authenticateToken does with a request. */
  datatype AuthOutcome =
    | Unauthorized          // 401: no token in the header
    | Forbidden             // 403: jwt.verify reported an error
    | Proceed(user: Token)  // next() with req.user set to the payload
  {
    function Status(): int {
      match this
      case Unauthorized => 401
      case Forbidden => 403
      case Proceed(_) => 200
    }
  }

  /**
   * authenticateToken: 401 when the header holds no token, 403 when jsonwebtoken
   * rejects it (empty, undecodable, wrong key or expired), otherwise continue
   * with the decoded payload.
   */
  function Authenticate(header: Option<string>, decode: string -> Option<Token>, nowMs: int): (r: AuthOutcome)
    ensures r.Unauthorized? <==> BearerToken(header).None?
    ensures r.Proceed? <==>
      (BearerToken(header).Some? && BearerToken(header).value != ""
       && decode(BearerToken(header).value).Some?
       && Verifies(decode(BearerToken(header).value).value, nowMs))
    ensures r.Proceed? ==> r.user == decode(BearerToken(header).value).value
  {
    match BearerToken(header)
    case None => Unauthorized
    case Some(token) =>
      if token == "" then Forbidden
      else
        match decode(token)
        case None => Forbidden
        case Some(payload) => if Verifies(payload, nowMs) then Proceed(payload) else Forbidden
  }

  /**
   * A token signed at issueMs and presented as "Bearer <text>" passes for the
   * first 3599 seconds at least, and is refused from one hour after issue on.
   */
  lemma TokenLifetime(mobileNumber: string, issueMs: int, text: string, decode: string -> Option<Token>, nowMs: int)
    requires ' ' !in text && text != ""
    requires decode(text) == Some(Sign(mobileNumber, issueMs))
    ensures Authenticate(Some("Bearer " + text), decode, nowMs).Proceed?
        <==> nowMs / 1000 < issueMs / 1000 + TokenLifetimeSeconds
    ensures issueMs <= nowMs <= issueMs + 3599000 ==>
      Authenticate(Some("Bearer " + text), decode, nowMs) == Proceed(Sign(mobileNumber, issueMs))
    ensures nowMs >= issueMs + 3600000 ==>
      Authenticate(Some("Bearer " + text), decode, nowMs) == Forbidden
  {
    BearerHeaderToken("Bearer", text);
    assert "Bearer" + " " + text == "Bearer " + text;
  }
}
