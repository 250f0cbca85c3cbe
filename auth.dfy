/** The `authByToken(required)` middleware: strip the `Token ` prefix from the
    Authorization header, verify what is left, and either answer 401 or pass the
    request on, with or without a credential. */
module Auth {
  import opened Http

  const Prefix := "Token "
  const UnauthorizedRequest := "unauthorized request"

  /** The token handed to verification: "" when the header is absent, else the
      header with one leading `Token ` removed. */
  function TokenOf(authorization: Option<string>): (token: string)
    ensures authorization.None? ==> token == ""
    ensures authorization.Some? && Prefix <= authorization.value ==>
              Prefix + token == authorization.value
    ensures authorization.Some? && !(Prefix <= authorization.value) ==>
              token == authorization.value
  {
    match authorization
    case None => ""
    case Some(header) =>
      if Prefix <= header then header[|Prefix|..] else header
  }

  /** The prefix is removed once only: a header carrying it twice keeps the second. */
  lemma TokenOfStripsOnce(token: string)
    ensures TokenOf(Some(Prefix + token)) == token
    ensures TokenOf(Some(Prefix + Prefix + token)) == Prefix + token
  {
    assert (Prefix + token)[|Prefix|..] == token;
    assert Prefix <= Prefix + Prefix + token;
    assert (Prefix + Prefix + token)[|Prefix|..] == Prefix + token;
  }

  /** What the verify callback decides: a 401, or `next()` with the credential it set. */
  datatype Decision = Reject | Proceed(credential: Option<string>)

  /** `required` defaults to true, as in `authByToken(required = true)`. */
  function Authenticate(token: string, verify: string -> Option<string>,
                        required: bool := true): (d: Decision)
    ensures d.Reject? <==> required && verify(token).None?
    ensures d.Proceed? ==> d.credential == verify(token)
    ensures d.Proceed? && required ==> d.credential.Some?
  {
    match verify(token)
    case None => if required then Reject else Proceed(None)
    case Some(email) => Proceed(Some(email))
  }

  /** The parts of one request/response exchange the middleware reads and writes. */
  class Exchange {
    const authorization: Option<string>
    var credential: Option<string>
    var response: Option<Response>
    var nextCalled: bool

    constructor (authorization: Option<string>)
      ensures this.authorization == authorization
      ensures credential.None? && response.None? && !nextCalled
    {
      this.authorization := authorization;
      credential := None;
      response := None;
      nextCalled := false;
    }
  }

  /** The middleware applied to one exchange that has not been answered yet:
      exactly one of "answer 401" and "call next" happens. */
  method AuthByToken(x: Exchange, verify: string -> Option<string>, required: bool := true)
    requires x.response.None? && !x.nextCalled
    modifies x
    ensures x.nextCalled <==> x.response.None?
    ensures x.response.Some? <==> required && verify(TokenOf(x.authorization)).None?
    ensures x.response.Some? ==> x.response == Some(Errors(401, [UnauthorizedRequest]))
    ensures x.credential ==
              match verify(TokenOf(x.authorization))
              case Some(email) => Some(email)
              case None => old(x.credential)
  {
    var token := TokenOf(x.authorization);
    match verify(token) {
      case None =>
        if required {
          x.response := Some(Errors(401, [UnauthorizedRequest]));
          return;
        }
      case Some(email) =>
        x.credential := Some(email);
    }
    x.nextCalled := true;
  }
}
