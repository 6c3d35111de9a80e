/**
 * The bearer-token gate that runs before every cart route. Signature checking
 * and expiry belong to the token library, so the verifier is a parameter: a
 * total function from the token text to the decoded payload, or None when the
 * token does not verify.
 */
module AuthMiddleware {
  import opened Wrappers
  import opened Text

  const BearerPrefix: string := "Bearer "

  /** Why the gate answered 401. */
  datatype Rejection = MissingOrMalformedHeader | InvalidOrExpiredToken

  /**
   * What one request gets: either a 401 response, or a single call to the next
   * handler with the request's user set to the decoded payload. Being one
   * datatype value, an outcome is never both.
   */
  datatype Outcome<P> = Unauthorized(reason: Rejection) | Next(user: P)

  /**
   * `token` is what follows "Bearer " in `header`, up to the next space or the
   * end of the header.
   */
  predicate IsTokenOf(header: string, token: string) {
    && StartsWith(header, BearerPrefix + token)
    && ' ' !in token
    && (|header| == |BearerPrefix| + |token| || header[|BearerPrefix| + |token|] == ' ')
  }

  /** A header has at most one token. */
  lemma TokenUnique(header: string, t1: string, t2: string)
    requires IsTokenOf(header, t1) && IsTokenOf(header, t2)
    ensures t1 == t2
  {
    var n := |BearerPrefix|;
    if |t1| == |t2| {
      assert t1 == header[n..n + |t1|] == t2;
    }
  }

  /** The second piece of `header.split(' ')`, for a header that starts with "Bearer ". */
  function BearerToken(header: string): (token: string)
    requires StartsWith(header, BearerPrefix)
    ensures IsTokenOf(header, token)
  {
    var rest := header[|BearerPrefix|..];
    assert header == "Bearer" + [' '] + rest;
    SplitAfterWord("Bearer", ' ', rest);
    SplitFirst(rest, ' ');
    Split(header, ' ')[1]
  }

  /**
   * The middleware: no header, an empty one, or one not starting with
   * "Bearer " is refused; otherwise the token is verified, and a payload lets
   * the request through while a verification failure is refused.
   */
  function Authenticate<P>(header: Option<string>, verify: string -> Option<P>): (out: Outcome<P>)
    ensures (out == Unauthorized(MissingOrMalformedHeader))
            <==> (header.None? || !StartsWith(header.value, BearerPrefix))
  {
    if header.None? || header.value == "" || !StartsWith(header.value, BearerPrefix) then
      Unauthorized(MissingOrMalformedHeader)
    else
      match verify(BearerToken(header.value))
      case None => Unauthorized(InvalidOrExpiredToken)
      case Some(decoded) => Next(decoded)
  }

  /**
   * A request goes on to the next handler, with user `p`, exactly when its
   * header carries a token that the verifier decodes to `p`.
   */
  lemma AuthenticateNextIff<P>(header: Option<string>, verify: string -> Option<P>, p: P)
    ensures Authenticate(header, verify) == Next(p)
            <==> header.Some? && exists t :: IsTokenOf(header.value, t) && verify(t) == Some(p)
  {
    if header.Some? && StartsWith(header.value, BearerPrefix) {
      var token := BearerToken(header.value);
      forall t | IsTokenOf(header.value, t) ensures t == token {
        TokenUnique(header.value, t, token);
      }
    }
  }

  /**
   * A well-formed header whose token the verifier refuses gets the 401 for an
   * invalid or expired token, and never reaches the next handler.
   */
  lemma AuthenticateInvalidToken<P>(header: string, token: string, verify: string -> Option<P>)
    requires IsTokenOf(header, token) && verify(token).None?
    ensures Authenticate(Some(header), verify) == Unauthorized(InvalidOrExpiredToken)
  {
    TokenUnique(header, token, BearerToken(header));
  }

  /**
   * A header that is "Bearer " followed by nothing, or by another space,
   * carries the empty token. The token library refuses an empty token, so
   * such a header always gets the invalid-token 401.
   */
  lemma AuthenticateEmptyToken<P>(header: string, verify: string -> Option<P>)
    requires StartsWith(header, BearerPrefix)
    requires |header| == |BearerPrefix| || header[|BearerPrefix|] == ' '
    requires verify("").None?
    ensures BearerToken(header) == ""
    ensures Authenticate(Some(header), verify) == Unauthorized(InvalidOrExpiredToken)
  {
    assert BearerPrefix + "" == BearerPrefix;
    assert IsTokenOf(header, "");
    AuthenticateInvalidToken(header, "", verify);
    TokenUnique(header, "", BearerToken(header));
  }
}
