/** The two Express middlewares that guard protected routes: `verifyToken`
    reads the bearer token from the `Authorization` header, verifies it and
    attaches the decoded claims to the request; `requireRole(role)` admits only
    requests whose attached claims carry exactly that role. Each either sends
    one error response or calls `next` once. Token verification itself
    (signature and expiry) is the parameter `verify`. */
module Middleware {
  import opened Text

  /** The decoded token payload as `jwt.verify` returns it. */
  datatype Claims = Claims(id: int, username: string, role: string, issuedAt: int, expiresAt: int)

  /** `res.status(status).json({ error })`. */
  datatype Reply = Reply(status: int, error: string)

  /** `jwt.verify(token, key)`: the decoded claims, or None where it throws. */
  type Verifier = (string, string) -> Option<Claims>

  const NoToken := Reply(401, "No token provided")
  const InvalidToken := Reply(401, "Invalid token")
  const NotAuthenticated := Reply(401, "Not authenticated")
  const Forbidden := Reply(403, "Forbidden")

  /** `header.split(" ")[1]`: the second space-separated segment, absent when
      the header holds no space. The scheme before it is not looked at. */
  function ExtractToken(header: string): (token: Option<string>)
    ensures token.None? <==> ' ' !in header
    ensures token.Some? ==> ' ' !in token.value
  {
    var segments := Split(header, " ");
    SplitCharSingle(header, ' ');
    SplitCharPieces(header, ' ');
    if |segments| >= 2 then Some(segments[1]) else None
  }

  /** Whatever word precedes the first space, the token is what follows it up
      to the next space or the end. */
  lemma ExtractTokenAfterScheme(scheme: string, token: string, rest: string)
    requires ' ' !in scheme && ' ' !in token
    requires rest == "" || rest[0] == ' '
    ensures ExtractToken(scheme + " " + token + rest) == Some(token)
  {
    assert scheme + " " + token + rest == scheme + [' '] + (token + rest);
    SplitCharAfterPrefix(scheme, ' ', token + rest);
    SplitCharFirst(token, ' ', rest);
  }

  /** The header a client builds from a token: `Bearer <token>`. */
  lemma ExtractBearerToken(token: string)
    requires ' ' !in token
    ensures ExtractToken("Bearer " + token) == Some(token)
  {
    ExtractTokenAfterScheme("Bearer", token, "");
    assert "Bearer" + " " + token + "" == "Bearer " + token;
  }

  /** One request passing through the middlewares: the header it carries, the
      `req.user` field, the responses sent on `res`, and how often `next` was
      called. */
  class Exchange {
    const authorization: Option<string>
    var user: Option<Claims>
    var replies: seq<Reply>
    var nextCalls: nat

    constructor (authorization: Option<string>)
      ensures this.authorization == authorization
      ensures user == None && replies == [] && nextCalls == 0
    {
      this.authorization := authorization;
      user := None;
      replies := [];
      nextCalls := 0;
    }

    /** Exactly one response, `reply`, was sent; nothing else changed. */
    twostate predicate Responded(reply: Reply)
      reads this
    {
      replies == old(replies) + [reply] && nextCalls == old(nextCalls) && user == old(user)
    }

    /** `next` was called once and nothing was sent. */
    twostate predicate Continued()
      reads this
    {
      replies == old(replies) && nextCalls == old(nextCalls) + 1
    }

    /** `verifyToken` */
    method VerifyToken(key: string, verify: Verifier)
      modifies this
      ensures !Truthy(authorization) ==> Responded(NoToken)
      ensures Truthy(authorization) && ExtractToken(authorization.value).None? ==>
                Responded(InvalidToken)
      ensures Truthy(authorization) && ExtractToken(authorization.value).Some? ==>
                var claims := verify(ExtractToken(authorization.value).value, key);
                && (claims.None? ==> Responded(InvalidToken))
                && (claims.Some? ==> Continued() && user == claims)
      ensures |replies| + nextCalls == old(|replies| + nextCalls) + 1
    {
      if !Truthy(authorization) {
        replies := replies + [NoToken];
        return;
      }
      var token := ExtractToken(authorization.value);
      if token.None? {
        // jwt.verify throws on a missing token
        replies := replies + [InvalidToken];
        return;
      }
      var decoded := verify(token.value, key);
      if decoded.None? {
        replies := replies + [InvalidToken];
        return;
      }
      user := decoded;
      nextCalls := nextCalls + 1;
    }

    /** `requireRole(role)` */
    method RequireRole(role: string)
      modifies this`replies, this`nextCalls
      ensures user.None? ==> Responded(NotAuthenticated)
      ensures user.Some? && user.value.role != role ==> Responded(Forbidden)
      ensures user.Some? && user.value.role == role ==> Continued()
      ensures |replies| + nextCalls == old(|replies| + nextCalls) + 1
    {
      if user.None? {
        replies := replies + [NotAuthenticated];
        return;
      }
      if user.value.role != role {
        replies := replies + [Forbidden];
        return;
      }
      nextCalls := nextCalls + 1;
    }
  }
}
