/** The users API: logging in and registering, each behind its validation chain. */
module UserApi {
  import opened Http
  import opened UserStore
  import opened Capabilities
  import Auth
  import Validator

  const WrongEmailOrPassword := "wrong email or password"

  function NoSuchUser(email: string): string
  {
    "user " + email + " not exists"
  }

  function AlreadyRegistered(email: string): string
  {
    "Email " + email + " has already been registerred."
  }

  /** `signJwt(email)`: a token whose claim is the email. */
  function SignJwt(c: Crypto, email: string): (token: string)
    ensures SoundTokens(c) ==> c.verify(token) == Some(email)
  {
    c.sign(email)
  }

  /** POST `/login` once validation has passed. It only reads the table. */
  function Login(s: Db, email: string, password: string, c: Crypto): (r: Response)
    ensures r.UserJson? || (r.Errors? && r.status == 401)
    ensures FindByEmail(s.users, email).None? ==> r == Errors(401, [NoSuchUser(email)])
    ensures r == Errors(401, [WrongEmailOrPassword]) <==>
              FindByEmail(s.users, email).Some? &&
              !c.compare(password, s.users[FindByEmail(s.users, email).value].password)
    ensures r.UserJson? ==>
              var u := s.users[FindByEmail(s.users, email).value];
              && c.compare(password, u.password)
              && r.user == UserView(email, Some(SignJwt(c, email)), u.name, u.bio, u.image)
  {
    match FindByEmail(s.users, email)
    case None =>
      assert NoSuchUser(email)[0] != WrongEmailOrPassword[0];
      Errors(401, [NoSuchUser(email)])
    case Some(id) =>
      var user := s.users[id];
      if !c.compare(password, user.password) then Errors(401, [WrongEmailOrPassword])
      else UserJson(UserView(email, Some(SignJwt(c, email)), user.name, user.bio, user.image))
  }

  /** In a consistent table, login succeeds iff a stored user has the email and
      the password matches that user's digest. */
  lemma LoginSucceedsIff(s: Db, id: int, password: string, c: Crypto)
    requires Consistent(s) && id in s.users
    ensures Login(s, s.users[id].email, password, c).UserJson? <==> c.compare(password, s.users[id].password)
  {
    FindByEmailFindsOwner(s.users, id);
  }

  /** The token a successful login answers authenticates its holder as that
      email on a later request sent with `Authorization: Token <token>`. */
  lemma LoginTokenAuthenticates(s: Db, email: string, password: string, c: Crypto, required: bool)
    requires SoundTokens(c)
    requires Login(s, email, password, c).UserJson?
    ensures var token := Login(s, email, password, c).user.token.value;
            Auth.Authenticate(Auth.TokenOf(Some(Auth.Prefix + token)), c.verify, required)
              == Auth.Proceed(Some(email))
  {
    Auth.TokenOfStripsOnce(SignJwt(c, email));
  }

  /** POST `/` once validation has passed. */
  function Register(s: Db, username: string, email: string, password: string, c: Crypto): (o: Outcome)
    ensures o.resp.Unhandled? <==> exists id :: id in s.users && s.users[id].email == email
    ensures o.resp.Unhandled? ==> o.db == s
    ensures o.resp.Unhandled? || o.resp.UserJson?
    ensures o.resp.UserJson? ==>
              && o.resp.user == UserView(email, Some(SignJwt(c, email)), username, None, None)
              && o.db.nextId == s.nextId + 1
              && o.db.users.Keys == s.users.Keys + {s.nextId}
              && o.db.users[s.nextId] == User(s.nextId, email, username, c.hash(password), None, None, {})
              && forall id :: id in s.users && id != s.nextId ==> o.db.users[id] == s.users[id]
  {
    match FindByEmail(s.users, email)
    case Some(_) => Outcome(Unhandled(AlreadyRegistered(email)), s)
    case None =>
      var id := s.nextId;
      var user := User(id, email, username, c.hash(password), None, None, {});
      Outcome(UserJson(UserView(email, Some(SignJwt(c, email)), username, None, None)),
              Db(s.users[id := user], id + 1))
  }

  /** In a consistent table registration adds exactly one user (the new id is
      fresh) and keeps the table consistent. */
  lemma RegisterAddsOne(s: Db, username: string, email: string, password: string, c: Crypto)
    requires Consistent(s)
    ensures var o := Register(s, username, email, password, c);
            && Consistent(o.db)
            && (o.resp.UserJson? ==> s.nextId !in s.users && |o.db.users| == |s.users| + 1)
  {
    var o := Register(s, username, email, password, c);
    if o.resp.UserJson? {
      assert s.nextId !in s.users;
      assert o.db.users.Keys == s.users.Keys + {s.nextId};
      assert |o.db.users.Keys| == |s.users.Keys| + 1;
    }
  }

  /** Registering and then logging in with the same password succeeds with a
      token for the email; any other password gets 401. */
  lemma RegisterThenLogin(s: Db, username: string, email: string, password: string,
                          other: string, c: Crypto)
    requires Consistent(s) && SoundDigests(c)
    requires forall id :: id in s.users ==> s.users[id].email != email
    ensures var s1 := Register(s, username, email, password, c).db;
            && Login(s1, email, password, c) ==
                 UserJson(UserView(email, Some(SignJwt(c, email)), username, None, None))
            && (other != password ==> Login(s1, email, other, c) == Errors(401, [WrongEmailOrPassword]))
  {
    RegisterAddsOne(s, username, email, password, c);
    var s1 := Register(s, username, email, password, c).db;
    assert s1.users[s.nextId].email == email;
    FindByEmailFindsOwner(s1.users, s.nextId);
  }

  /** POST `/login`: the validation chain, then the handler. */
  function LoginRoute(s: Db, body: Validator.Body, isEmail: string -> bool, c: Crypto): (r: Response)
    ensures r.Invalid? <==> Validator.Run(Validator.Initialised()["login"], body, isEmail, []).Rejected?
    ensures !r.Invalid? ==>
              ("user.email" in body && "user.password" in body &&
               r == Login(s, body["user.email"], body["user.password"], c))
  {
    Validator.InitialisedShape();
    match Validator.Run(Validator.Initialised()["login"], body, isEmail, [])
    case Rejected(errs) => Invalid(errs)
    case Passed(_) =>
      Validator.LoginPassedHasFields(body, isEmail);
      Login(s, body["user.email"], body["user.password"], c)
  }

  /** POST `/`: the validation chain, then the handler. */
  function RegisterRoute(s: Db, body: Validator.Body, isEmail: string -> bool, c: Crypto): (o: Outcome)
    ensures o.resp.Invalid? <==> Validator.Run(Validator.Initialised()["register"], body, isEmail, []).Rejected?
    ensures o.resp.Invalid? ==> o.db == s
    ensures !o.resp.Invalid? ==>
              ("user.email" in body && "user.password" in body && "user.username" in body &&
               o == Register(s, body["user.username"], body["user.email"], body["user.password"], c))
  {
    Validator.InitialisedShape();
    match Validator.Run(Validator.Initialised()["register"], body, isEmail, [])
    case Rejected(errs) => Outcome(Invalid(errs), s)
    case Passed(_) =>
      Validator.RegisterPassedHasFields(body, isEmail);
      Register(s, body["user.username"], body["user.email"], body["user.password"], c)
  }

  /** POST `/login` handler: a read-only decision chain over the table. */
  method PostLogin(db: Store, email: string, password: string, c: Crypto) returns (resp: Response)
    ensures resp == Login(db.State(), email, password, c)
  {
    var found := FindByEmail(db.users, email);
    if found.None? {
      return Errors(401, [NoSuchUser(email)]);
    }
    var user := db.users[found.value];
    var passwordMatch := c.compare(password, user.password);
    if !passwordMatch {
      return Errors(401, [WrongEmailOrPassword]);
    }
    var token := SignJwt(c, email);
    resp := UserJson(UserView(email, Some(token), user.name, user.bio, user.image));
  }

  /** POST `/` handler: reject a taken email, else create the user. */
  method PostUsers(db: Store, username: string, email: string, password: string, c: Crypto)
    returns (resp: Response)
    requires db.Valid()
    modifies db
    ensures db.Valid()
    ensures Outcome(resp, db.State()) == Register(old(db.State()), username, email, password, c)
  {
    RegisterAddsOne(db.State(), username, email, password, c);
    var result := FindByEmail(db.users, email);
    if result.Some? {
      return Unhandled(AlreadyRegistered(email));
    }
    var hash := c.hash(password);
    var id := db.nextId;
    db.users := db.users[id := User(id, email, username, hash, None, None, {})];
    db.nextId := id + 1;
    var token := SignJwt(c, email);
    resp := UserJson(UserView(email, Some(token), username, None, None));
  }
}
