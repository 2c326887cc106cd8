/** The one route that chains the middlewares:
    `GET /api/admin-only` runs `verifyToken`, then `requireRole("admin")`, then
    a handler that answers with a fixed secret. */
module Server {
  import opened Text
  import opened Middleware

  const AdminRole := "admin"
  const AdminSecret := "only admin can see this"

  datatype RouteResponse =
    | Denied(reply: Reply)
    | Granted(secret: string)

  /** The claims a request's header yields under `verify`, if any. */
  function Authenticated(authorization: Option<string>, key: string, verify: Verifier): Option<Claims> {
    if !Truthy(authorization) then None
    else match ExtractToken(authorization.value)
      case None => None
      case Some(token) => verify(token, key)
  }

  /** The admin-only route: the handler runs exactly when the header carries a
      token that verifies to claims with role "admin"; otherwise the first
      middleware to object answers. */
  method AdminOnly(authorization: Option<string>, key: string, verify: Verifier)
    returns (resp: RouteResponse)
    ensures resp.Granted? <==>
              Authenticated(authorization, key, verify).Some?
              && Authenticated(authorization, key, verify).value.role == AdminRole
    ensures resp.Granted? ==> resp.secret == AdminSecret
    ensures !Truthy(authorization) ==> resp == Denied(NoToken)
    ensures Truthy(authorization) && Authenticated(authorization, key, verify).None? ==>
              resp == Denied(InvalidToken)
    ensures Authenticated(authorization, key, verify).Some?
            && Authenticated(authorization, key, verify).value.role != AdminRole ==>
              resp == Denied(Forbidden)
  {
    var exchange := new Exchange(authorization);
    exchange.VerifyToken(key, verify);
    if exchange.nextCalls == 1 {
      exchange.RequireRole(AdminRole);
      if exchange.nextCalls == 2 {
        return Granted(AdminSecret);
      }
    }
    return Denied(exchange.replies[0]);
  }

  /** A client that sends `Bearer <token>` is authenticated exactly as far as
      the token verifies. */
  lemma BearerHeaderAuthenticates(token: string, key: string, verify: Verifier)
    requires ' ' !in token
    ensures Authenticated(Some("Bearer " + token), key, verify) == verify(token, key)
  {
    ExtractBearerToken(token);
  }
}
