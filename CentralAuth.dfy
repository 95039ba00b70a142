/** The dashboard's authentication gate (internal/server/central_auth.go):
    one credential is taken from the first non-empty of three channels and
    compared with the configured secret; only an exact match lets the
    request through to the wrapped handler. */
module CentralAuth {

  /** The parts of a request the gate looks at. A header or query
      parameter that is absent reads as the empty string, as
      `Header.Get` and `Query().Get` return it. */
  datatype Request = Request(authorization: string, xAuthKey: string, queryAuth: string)

  datatype Decision = Admit | Reject(code: int, message: string)

  const StatusUnauthorized := 401
  const BearerPrefix := "Bearer "

  /** The credential of an `Authorization: Bearer <key>` header: present
      only when the header is longer than the seven-character prefix. */
  function BearerKey(header: string): (key: string)
    ensures key != "" <==> |header| > 7 && header[..7] == BearerPrefix
    ensures key != "" ==> header == BearerPrefix + key
  {
    if |header| > 7 && header[..7] == BearerPrefix then
      assert header == header[..7] + header[7..];
      header[7..]
    else ""
  }

  /** The credential: Bearer header, else X-Auth-Key, else the `auth`
      query parameter. */
  function ExtractKey(r: Request): (key: string)
    ensures BearerKey(r.authorization) != "" ==> key == BearerKey(r.authorization)
    ensures BearerKey(r.authorization) == "" && r.xAuthKey != "" ==> key == r.xAuthKey
    ensures BearerKey(r.authorization) == "" && r.xAuthKey == "" ==> key == r.queryAuth
    ensures key == "" <==> BearerKey(r.authorization) == "" && r.xAuthKey == "" && r.queryAuth == ""
  {
    var bearer := BearerKey(r.authorization);
    var key := if bearer != "" then bearer else r.xAuthKey;
    if key != "" then key else r.queryAuth
  }

  /** subtle.ConstantTimeCompare: 1 exactly when both byte strings are
      equal (length included), 0 otherwise. */
  function ConstantTimeCompare(a: string, b: string): (r: int)
    ensures r == 1 <==> a == b
    ensures r == 0 || r == 1
  {
    if |a| != |b| then 0
    else if forall i :: 0 <= i < |a| ==> a[i] == b[i] then
      assert a == b;
      1
    else 0
  }

  /** authMiddleware's decision for one request. */
  function Authorize(r: Request, secret: string): (d: Decision)
    ensures d == Admit <==> ExtractKey(r) != "" && ExtractKey(r) == secret
    ensures ExtractKey(r) == "" ==> d == Reject(StatusUnauthorized, "Missing authentication key")
    ensures ExtractKey(r) != "" && ExtractKey(r) != secret ==>
              d == Reject(StatusUnauthorized, "Invalid authentication key")
  {
    var key := ExtractKey(r);
    if key == "" then Reject(StatusUnauthorized, "Missing authentication key")
    else if ConstantTimeCompare(key, secret) != 1 then Reject(StatusUnauthorized, "Invalid authentication key")
    else Admit
  }

  /** A response: a status code and a body. */
  datatype Response = Response(code: int, body: string)

  /** The wrapped route: the inner handler's response is produced (the
      handler runs) only when the gate admits the request. */
  function Guard(r: Request, secret: string, inner: Response): (resp: Response)
    ensures Authorize(r, secret) == Admit ==> resp == inner
    ensures Authorize(r, secret).Reject? ==>
              resp == Response(StatusUnauthorized, Authorize(r, secret).message)
  {
    match Authorize(r, secret)
    case Admit => inner
    case Reject(code, message) => Response(code, message)
  }

  /** Exactly "Bearer " (no key) yields no Bearer credential. */
  lemma BareBearerIsEmpty()
    ensures BearerKey("Bearer ") == ""
  {
  }

  /** With an empty configured secret no request gets through. */
  lemma EmptySecretAdmitsNothing(r: Request)
    ensures Authorize(r, "").Reject?
  {
  }

  /** A wrong non-empty credential on a higher-precedence channel is not
      rescued by the right one on a lower-precedence channel. */
  lemma HigherChannelShadows(r: Request, secret: string)
    requires || (BearerKey(r.authorization) != "" && BearerKey(r.authorization) != secret)
             || (BearerKey(r.authorization) == "" && r.xAuthKey != "" && r.xAuthKey != secret)
    ensures Authorize(r, secret) == Reject(StatusUnauthorized, "Invalid authentication key")
  {
  }

  /** The right secret on any single channel is admitted, and a request
      is admitted the same way whichever channel carries it. */
  lemma EachChannelAdmits(secret: string)
    requires secret != ""
    ensures Authorize(Request(BearerPrefix + secret, "", ""), secret) == Admit
    ensures Authorize(Request("", secret, ""), secret) == Admit
    ensures Authorize(Request("", "", secret), secret) == Admit
  {
    var h := BearerPrefix + secret;
    assert h[..7] == BearerPrefix;
    assert h[7..] == secret;
  }
}
