/** The `verifyUser` middleware of backend/src/middlewares/verify.ts: it picks the access token
    from the `Authorization` header or the `morphtoken` cookie, checks it with the platform's
    `/v2/me` (a parameter here) and attaches the platform's username to the request. */
module VerifyMiddleware {
  import opened Wrappers
  import opened Text
  import opened ErrorMiddleware
  import opened Http

  /** `fields[i]`, which is `undefined` past the end. */
  function Field(fields: seq<string>, i: nat): Option<string>
  {
    if i < |fields| then Some(fields[i]) else None
  }

  /** `v || null` on an optional string. */
  function Truthy(v: Option<string>): (r: Option<string>)
    ensures r.Some? <==> Present(v)
    ensures r.Some? ==> r == v
  {
    if Present(v) then v else None
  }

  const Bearer := "Bearer "

  /** Whether the header is a bearer credential. */
  predicate IsBearer(authorization: Option<string>)
  {
    authorization.Some? && StartsWith(authorization.value, Bearer)
  }

  /** The token: the text after "Bearer " up to the next space when the header is a bearer
      credential, otherwise the cookie; an empty result is no token. */
  function SelectToken(authorization: Option<string>, cookie: Option<string>): (r: Option<string>)
    ensures r.Some? ==> r.value != ""
    ensures IsBearer(authorization) ==> r.None? || ' ' !in r.value
  {
    if IsBearer(authorization) then Truthy(Some(TakeUntil(authorization.value[|Bearer|..], ' ')))
    else Truthy(cookie)
  }

  /** With a bearer header the token is the header's second space-separated field, and the
      cookie is never consulted, not even when that field is empty. */
  lemma SelectTokenFromHeader(h: string, cookie: Option<string>)
    requires StartsWith(h, Bearer)
    ensures SelectToken(Some(h), cookie) == Truthy(Field(Split(h, ' '), 1))
  {
    var rest := h[|Bearer|..];
    assert h == "Bearer" + [' '] + rest;
    SplitAfterField("Bearer", ' ', rest);
    SplitFirstField(rest, ' ');
    assert Split(h, ' ')[1] == Split(rest, ' ')[0];
  }

  /** Without a bearer header the token is the cookie, when that is not empty. */
  lemma SelectTokenFromCookie(authorization: Option<string>, cookie: Option<string>)
    requires !IsBearer(authorization)
    ensures SelectToken(authorization, cookie) == (if Present(cookie) then cookie else None)
  {
  }

  /** "Bearer " with nothing after it gives no token, whatever the cookie holds. */
  lemma EmptyBearerIgnoresCookie(cookie: Option<string>)
    ensures SelectToken(Some(Bearer), cookie).None?
  {
    SelectTokenFromHeader(Bearer, cookie);
    assert Split(Bearer, ' ') == ["Bearer", ""] by {
      assert Bearer == "Bearer" + [' '] + "";
      SplitAfterField("Bearer", ' ', "");
    }
  }

  /** What the middleware does with the request: call `next`, or answer 401. */
  datatype Verdict = CallNext | Reject(status: int, message: Message)

  /** The request as the middleware sees it; `user` is the field it attaches. */
  class Request {
    var authorization: Option<string>
    var cookie: Option<string>
    var user: Option<string>

    constructor (authorization: Option<string>, cookie: Option<string>)
      ensures this.authorization == authorization && this.cookie == cookie && user.None?
    {
      this.authorization := authorization;
      this.cookie := cookie;
      user := None;
    }
  }

  /** The middleware. `me` is the platform's answer for a token: the username it reports, or
      the error it throws. */
  method VerifyUser(req: Request, me: string -> Result<Option<string>, AppError>) returns (v: Verdict)
    modifies req
    ensures req.authorization == old(req.authorization) && req.cookie == old(req.cookie)
    ensures var token := SelectToken(old(req.authorization), old(req.cookie));
      && (token.None? ==> v == Reject(401, NoTokenProvided) && req.user == old(req.user))
      && (token.Some? && me(token.value).Err? ==> v == Reject(401, InvalidToken) && req.user == old(req.user))
      && (token.Some? && me(token.value).Ok? ==> v == CallNext && req.user == me(token.value).value)
  {
    var token := SelectToken(req.authorization, req.cookie);
    if token.None? {
      return Reject(401, NoTokenProvided);
    }
    var answer := me(token.value);
    if answer.Err? {
      return Reject(401, InvalidToken);
    }
    req.user := answer.value;
    v := CallNext;
  }
}
