/** The user API: the authenticated user's own record, read and partially updated. */
module SelfApi {
  import opened Http
  import opened UserStore
  import opened Capabilities
  import Auth

  const UserNotFound := "user not found"
  /** The storage layer's message when an update would give two users one email. */
  const EmailInUse := "Unique constraint failed on the fields: (`email`)"
  /** What `bcrypt.hash` throws where `bcrypt` was never imported. */
  const BcryptUndefined := "bcrypt is not defined"
  /** What destructuring an undefined `req.body.user` throws. */
  const NoUserObject := "Cannot destructure property 'email' of 'req.body.user' as it is undefined."

  /** GET `/`: the stored user of the credential, and the Authorization header as sent. */
  function Current(s: Db, credential: string, authorization: Option<string>): (r: Response)
    ensures r.Errors? <==> forall id :: id in s.users ==> s.users[id].email != credential
    ensures r.Errors? ==> r == Errors(400, [UserNotFound])
    ensures r.Errors? || r.UserJson?
    ensures r.UserJson? ==>
              exists id :: id in s.users && s.users[id].email == credential && r.user == View(s.users[id], authorization)
  {
    match FindByEmail(s.users, credential)
    case None => Errors(400, [UserNotFound])
    case Some(id) => UserJson(View(s.users[id], authorization))
  }

  /** The fields of `req.body.user`; an undefined field is `None`. */
  datatype UserPatch = UserPatch(email: Option<string>, username: Option<string>,
                                 password: Option<string>, image: Option<string>, bio: Option<string>)

  /** The `data` object handed to the update: a key is present only when set. */
  datatype Changes = Changes(email: Option<string>, name: Option<string>, password: Option<string>,
                             bio: Option<string>, image: Option<string>)

  /** The keys the handler puts in `data`: the truthy fields, with the password hashed. */
  function ChangesOf(p: UserPatch, hash: string -> string): (d: Changes)
    ensures d.email.Some? <==> Truthy(p.email)
    ensures d.name.Some? <==> Truthy(p.username)
    ensures d.password.Some? <==> Truthy(p.password)
    ensures d.bio.Some? <==> Truthy(p.bio)
    ensures d.image.Some? <==> Truthy(p.image)
    ensures d.email.Some? ==> d.email == p.email
    ensures d.name.Some? ==> d.name == p.username
    ensures d.password.Some? ==> d.password.value == hash(p.password.value)
    ensures d.bio.Some? ==> d.bio == p.bio
    ensures d.image.Some? ==> d.image == p.image
  {
    Changes(if Truthy(p.email) then p.email else None,
            if Truthy(p.username) then p.username else None,
            if Truthy(p.password) then Some(hash(p.password.value)) else None,
            if Truthy(p.bio) then p.bio else None,
            if Truthy(p.image) then p.image else None)
  }

  /** The update: every key present in `data` overwrites its column. */
  function Apply(u: User, d: Changes): (r: User)
    ensures r.id == u.id && r.following == u.following
    ensures r.email == (if d.email.Some? then d.email.value else u.email)
    ensures r.name == (if d.name.Some? then d.name.value else u.name)
    ensures r.password == (if d.password.Some? then d.password.value else u.password)
    ensures r.bio == (if d.bio.Some? then d.bio else u.bio)
    ensures r.image == (if d.image.Some? then d.image else u.image)
    ensures d == Changes(None, None, None, None, None) ==> r == u
  {
    u.(email := if d.email.Some? then d.email.value else u.email,
       name := if d.name.Some? then d.name.value else u.name,
       password := if d.password.Some? then d.password.value else u.password,
       bio := if d.bio.Some? then d.bio else u.bio,
       image := if d.image.Some? then d.image else u.image)
  }

  /** The token PUT answers: re-signed for the new email iff one is supplied. */
  function TokenAfter(p: UserPatch, authorization: Option<string>, c: Crypto): (t: Option<string>)
    ensures SoundTokens(c) && Truthy(p.email) ==> t.Some? && c.verify(t.value) == p.email
    ensures !Truthy(p.email) ==> t == authorization
  {
    if Truthy(p.email) then Some(c.sign(p.email.value)) else authorization
  }

  /** The token a PUT with an email answers, sent back as `Token <token>`,
      authenticates as the new email. */
  lemma NewTokenAuthenticates(p: UserPatch, authorization: Option<string>, c: Crypto, required: bool)
    requires SoundTokens(c) && Truthy(p.email)
    ensures var t := TokenAfter(p, authorization, c).value;
            Auth.Authenticate(Auth.TokenOf(Some(Auth.Prefix + t)), c.verify, required) == Auth.Proceed(p.email)
  {
    Auth.TokenOfStripsOnce(TokenAfter(p, authorization, c).value);
  }

  /** Without an email, PUT answers the Authorization header as sent, prefix
      included (GET does the same), unlike the bare token of login and
      register. Sent back as `Token <token>`, that answer reaches verification
      with the prefix still on it. */
  lemma EchoedTokenKeepsPrefix(p: UserPatch, jwt: string, c: Crypto)
    requires !Truthy(p.email)
    ensures TokenAfter(p, Some(Auth.Prefix + jwt), c) == Some(Auth.Prefix + jwt)
    ensures var t := TokenAfter(p, Some(Auth.Prefix + jwt), c).value;
            Auth.TokenOf(Some(Auth.Prefix + t)) == Auth.Prefix + jwt != jwt
  {
    Auth.TokenOfStripsOnce(Auth.Prefix + jwt);
    assert |Auth.Prefix + jwt| != |jwt|;
  }

  /** Setting `email` to one another user holds violates the email column's uniqueness. */
  predicate EmailHeldByOther(users: map<int, User>, email: string, id: int)
  {
    var holder := FindByEmail(users, email);
    holder.Some? && holder.value != id
  }

  /** PUT `/`, with the password hashed before it is stored. */
  function Update(s: Db, credential: string, authorization: Option<string>, p: UserPatch, c: Crypto): (o: Outcome)
    ensures o.resp.Errors? || o.resp.UserJson?
    ensures o.resp.Errors? ==> o.db == s && o.resp.status == 400
    ensures o.resp.UserJson? ==> o.resp.user.token == TokenAfter(p, authorization, c)
    ensures o.db.nextId == s.nextId && o.db.users.Keys == s.users.Keys
    ensures FindByEmail(s.users, credential).None? ==> o == Outcome(Errors(400, [UserNotFound]), s)
    ensures FindByEmail(s.users, credential).Some? ==>
              (o.resp.Errors? <==> Truthy(p.email) && EmailHeldByOther(s.users, p.email.value, FindByEmail(s.users, credential).value))
    ensures FindByEmail(s.users, credential).Some? && o.resp.Errors? ==> o.resp == Errors(400, [EmailInUse])
  {
    match FindByEmail(s.users, credential)
    case None => Outcome(Errors(400, [UserNotFound]), s)
    case Some(id) =>
      if Truthy(p.email) && EmailHeldByOther(s.users, p.email.value, id) then
        Outcome(Errors(400, [EmailInUse]), s)
      else
        var u := Apply(s.users[id], ChangesOf(p, c.hash));
        Outcome(UserJson(View(u, TokenAfter(p, authorization, c))), s.(users := s.users[id := u]))
  }

  /** PUT `/` on the whole request body: with no `user` object, destructuring it
      throws inside the `try` after the caller's lookup, and the answer is 400. */
  function Put(s: Db, credential: string, authorization: Option<string>, user: Option<UserPatch>, c: Crypto): (o: Outcome)
    ensures user.None? ==> o.db == s && o.resp.Errors? && o.resp.status == 400
    ensures user.None? && FindByEmail(s.users, credential).Some? ==> o.resp == Errors(400, [NoUserObject])
    ensures user.Some? ==> o == Update(s, credential, authorization, user.value, c)
  {
    match user
    case None =>
      if FindByEmail(s.users, credential).None? then Outcome(Errors(400, [UserNotFound]), s)
      else Outcome(Errors(400, [NoUserObject]), s)
    case Some(p) => Update(s, credential, authorization, p, c)
  }

  /** PUT `/` as the file is written: `bcrypt` is used without being imported, so
      a supplied password throws inside the `try` before the update runs. */
  function UpdateAsWritten(s: Db, credential: string, authorization: Option<string>, p: UserPatch, c: Crypto): (o: Outcome)
    ensures !Truthy(p.password) ==> o == Update(s, credential, authorization, p, c)
    ensures FindByEmail(s.users, credential).None? ==> o == Outcome(Errors(400, [UserNotFound]), s)
    ensures FindByEmail(s.users, credential).Some? && Truthy(p.password) ==> o == Outcome(Errors(400, [BcryptUndefined]), s)
  {
    match FindByEmail(s.users, credential)
    case None => Outcome(Errors(400, [UserNotFound]), s)
    case Some(_) =>
      if Truthy(p.password) then Outcome(Errors(400, [BcryptUndefined]), s)
      else Update(s, credential, authorization, p, c)
  }

  /** As written, changing the password of an existing user always fails with 400
      and changes nothing, whereas the intended update stores the new digest. */
  lemma PasswordChangeAsWritten(s: Db, id: int, authorization: Option<string>, p: UserPatch, c: Crypto)
    requires Consistent(s) && id in s.users && Truthy(p.password)
    requires !(Truthy(p.email) && EmailHeldByOther(s.users, p.email.value, id))
    ensures UpdateAsWritten(s, s.users[id].email, authorization, p, c) == Outcome(Errors(400, [BcryptUndefined]), s)
    ensures var o := Update(s, s.users[id].email, authorization, p, c);
            o.resp.UserJson? && o.db.users[id].password == c.hash(p.password.value)
  {
    FindByEmailFindsOwner(s.users, id);
  }

  /** A successful PUT writes exactly the supplied truthy fields into the caller's
      record (the password as its digest), keeps the id and the following set, and
      answers the updated record; no other record changes. */
  lemma {:induction false} UpdateMerges(s: Db, id: int, authorization: Option<string>, p: UserPatch, c: Crypto)
    requires Consistent(s) && id in s.users
    requires !(Truthy(p.email) && EmailHeldByOther(s.users, p.email.value, id))
    ensures var o := Update(s, s.users[id].email, authorization, p, c);
            var before := s.users[id];
            var after := o.db.users[id];
            && o.resp == UserJson(View(after, TokenAfter(p, authorization, c)))
            && after.id == id && after.following == before.following
            && after.email == (if Truthy(p.email) then p.email.value else before.email)
            && after.name == (if Truthy(p.username) then p.username.value else before.name)
            && after.password == (if Truthy(p.password) then c.hash(p.password.value) else before.password)
            && after.bio == (if Truthy(p.bio) then p.bio else before.bio)
            && after.image == (if Truthy(p.image) then p.image else before.image)
            && (forall j :: j in s.users && j != id ==> o.db.users[j] == s.users[j])
            && Consistent(o.db)
  {
    FindByEmailFindsOwner(s.users, id);
    var o := Update(s, s.users[id].email, authorization, p, c);
    var after := o.db.users[id];
    assert o.db.users == s.users[id := after];
    if Truthy(p.email) {
      forall j | j in s.users && j != id ensures s.users[j].email != p.email.value {
        FindByEmailFindsOwner(s.users, j);
      }
    }
  }

  /** A GET sent with the token a PUT answered, carrying the updated email as its
      credential, answers exactly what the PUT answered. */
  lemma UpdateThenCurrent(s: Db, id: int, authorization: Option<string>, p: UserPatch, c: Crypto)
    requires Consistent(s) && id in s.users
    requires !(Truthy(p.email) && EmailHeldByOther(s.users, p.email.value, id))
    ensures var o := Update(s, s.users[id].email, authorization, p, c);
            Current(o.db, o.db.users[id].email, TokenAfter(p, authorization, c)) == o.resp
  {
    UpdateMerges(s, id, authorization, p, c);
    var o := Update(s, s.users[id].email, authorization, p, c);
    FindByEmailFindsOwner(o.db.users, id);
  }

  /** The same PUT sent again (with the updated email as its credential) changes
      nothing further. */
  lemma UpdateIdempotent(s: Db, id: int, authorization: Option<string>, p: UserPatch, c: Crypto)
    requires Consistent(s) && id in s.users
    requires !(Truthy(p.email) && EmailHeldByOther(s.users, p.email.value, id))
    ensures var once := Update(s, s.users[id].email, authorization, p, c);
            Update(once.db, once.db.users[id].email, authorization, p, c) == once
  {
    UpdateMerges(s, id, authorization, p, c);
    var once := Update(s, s.users[id].email, authorization, p, c);
    FindByEmailFindsOwner(once.db.users, id);
    if Truthy(p.email) {
      assert once.db.users[id].email == p.email.value;
      FindByEmailFindsOwner(once.db.users, id);
      assert !EmailHeldByOther(once.db.users, p.email.value, id);
    }
    UpdateMerges(once.db, id, authorization, p, c);
    var twice := Update(once.db, once.db.users[id].email, authorization, p, c);
    assert twice.db.users[id] == once.db.users[id];
    assert twice.db.users == once.db.users;
  }

  /** GET `/` handler. */
  method GetUser(db: Store, credential: string, authorization: Option<string>) returns (resp: Response)
    ensures resp == Current(db.State(), credential, authorization)
  {
    var user := FindByEmail(db.users, credential);
    if user.None? {
      return Errors(400, [UserNotFound]);
    }
    var u := db.users[user.value];
    resp := UserJson(UserView(u.email, authorization, u.name, u.bio, u.image));
  }

  /** PUT `/` handler: `data` gets one key per truthy field, in the source's order;
      the update then overwrites the caller's record. */
  method PutUser(db: Store, credential: string, authorization: Option<string>, body: Option<UserPatch>, c: Crypto)
    returns (resp: Response)
    requires db.Valid()
    modifies db
    ensures db.Valid()
    ensures Outcome(resp, db.State()) == Put(old(db.State()), credential, authorization, body, c)
  {
    var user := FindByEmail(db.users, credential);
    if user.None? {
      return Errors(400, [UserNotFound]);
    }
    if body.None? {
      return Errors(400, [NoUserObject]);
    }
    var p := body.value;
    var id := user.value;
    var token := if Truthy(p.email) then Some(c.sign(p.email.value)) else authorization;
    var data := Changes(None, None, None, None, None);
    if Truthy(p.email) {
      data := data.(email := p.email);
    }
    if Truthy(p.username) {
      data := data.(name := p.username);
    }
    if Truthy(p.bio) {
      data := data.(bio := p.bio);
    }
    if Truthy(p.image) {
      data := data.(image := p.image);
    }
    if Truthy(p.password) {
      data := data.(password := Some(c.hash(p.password.value)));
    }
    assert data == ChangesOf(p, c.hash);
    if data.email.Some? && EmailHeldByOther(db.users, data.email.value, id) {
      return Errors(400, [EmailInUse]);
    }
    FindByEmailFindsOwner(db.users, id);
    UpdateMerges(db.State(), id, authorization, p, c);
    var newUser := Apply(db.users[id], data);
    db.users := db.users[id := newUser];
    resp := UserJson(UserView(newUser.email, token, newUser.name, newUser.bio, newUser.image));
  }
}
