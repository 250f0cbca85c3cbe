/** The profiles API: a user's profile with the viewer-relative `following`
    flag, and following and unfollowing a user by name. */
module ProfileApi {
  import opened Http
  import opened UserStore
  import Auth

  /** Line 42 reads `following` of a null query result when the credential's
      email matches no user; the async handler rejects. */
  const NullViewer := "TypeError: cannot read property 'following' of null"
  /** The update keyed by the credential's email finds no record to update. */
  const RecordNotFound := "Record to update not found."

  function NotFound(username: string): Response
  {
    Errors(404, [username + " not found"])
  }

  function ProfileOf(u: User, following: bool): ProfileView
  {
    ProfileView(u.name, u.bio, u.image, following)
  }

  /** GET `/:username`, given the credential the optional authentication left. */
  function Profile(s: Db, credential: Option<string>, username: string): (r: Response)
    ensures r.Errors? <==> FindByName(s.users, username).None?
    ensures r.Errors? ==> r == NotFound(username)
    ensures r.ProfileJson? || r.Errors? || r.Unhandled?
    ensures r.ProfileJson? ==> r.profile.username == username
    ensures r.ProfileJson? ==>
              r.profile == ProfileOf(s.users[FindByName(s.users, username).value], r.profile.following)
    ensures !Truthy(credential) ==> !r.Unhandled? && (r.ProfileJson? ==> !r.profile.following)
  {
    match FindByName(s.users, username)
    case None => NotFound(username)
    case Some(t) =>
      if !Truthy(credential) then ProfileJson(ProfileOf(s.users[t], false))
      else
        match FindByEmail(s.users, credential.value)
        case None => Unhandled(NullViewer)
        case Some(v) => ProfileJson(ProfileOf(s.users[t], t in s.users[v].following))
  }

  /** An authenticated viewer sees `following` iff the target's id is in the
      viewer's following set; the rest of the profile is the target's record. */
  lemma FollowingIsMembership(s: Db, viewer: int, username: string)
    requires Consistent(s) && viewer in s.users && s.users[viewer].email != ""
    requires FindByName(s.users, username).Some?
    ensures var t := FindByName(s.users, username).value;
            Profile(s, Some(s.users[viewer].email), username)
              == ProfileJson(ProfileOf(s.users[t], t in s.users[viewer].following))
  {
    FindByEmailFindsOwner(s.users, viewer);
  }

  /** The store after `viewer` connects or disconnects `target` in its following set. */
  function Relink(s: Db, viewer: int, target: int, follow: bool): (t: Db)
    requires viewer in s.users
    ensures t.nextId == s.nextId && t.users.Keys == s.users.Keys
    ensures forall id :: id in s.users && id != viewer ==> t.users[id] == s.users[id]
    ensures t.users[viewer] == s.users[viewer].(following := t.users[viewer].following)
    ensures target in t.users[viewer].following <==> follow
    ensures forall x :: x != target ==> (x in t.users[viewer].following <==> x in s.users[viewer].following)
  {
    var v := s.users[viewer];
    var following := if follow then v.following + {target} else v.following - {target};
    s.(users := s.users[viewer := v.(following := following)])
  }

  /** POST `/:username/follow` (follow = true) and DELETE `/:username/follow`
      (follow = false) for an authenticated credential. */
  function Link(s: Db, credential: string, username: string, follow: bool): (o: Outcome)
    ensures o.resp.Errors? <==> FindByName(s.users, username).None?
    ensures o.resp.Errors? ==> o.resp == NotFound(username)
    ensures !o.resp.ProfileJson? ==> o.db == s
    ensures o.resp.ProfileJson? ==> o.resp.profile.following == follow && o.resp.profile.username == username
    ensures o.db.nextId == s.nextId && o.db.users.Keys == s.users.Keys
    ensures forall id :: id in s.users ==>
              o.db.users[id] == s.users[id].(following := o.db.users[id].following)
    ensures forall id :: id in s.users && s.users[id].email != credential ==> o.db.users[id] == s.users[id]
  {
    match FindByName(s.users, username)
    case None => Outcome(NotFound(username), s)
    case Some(t) =>
      match FindByEmail(s.users, credential)
      case None => Outcome(Unhandled(RecordNotFound), s)
      case Some(v) => Outcome(ProfileJson(ProfileOf(s.users[t], follow)), Relink(s, v, t, follow))
  }

  /** POST `/:username/follow`: on success the target's id is in the viewer's set. */
  function Follow(s: Db, credential: string, username: string): (o: Outcome)
    ensures o.resp.Errors? <==> FindByName(s.users, username).None?
    ensures !o.resp.ProfileJson? ==> o.db == s
    ensures o.resp.ProfileJson? ==> o.resp.profile.following && o.resp.profile.username == username
    ensures o.resp.ProfileJson? ==>
              && FindByName(s.users, username).Some? && FindByEmail(s.users, credential).Some?
              && FindByEmail(s.users, credential).value in o.db.users
              && FindByName(s.users, username).value in o.db.users[FindByEmail(s.users, credential).value].following
  {
    Link(s, credential, username, true)
  }

  /** DELETE `/:username/follow`: on success the target's id is not in the viewer's set. */
  function Unfollow(s: Db, credential: string, username: string): (o: Outcome)
    ensures o.resp.Errors? <==> FindByName(s.users, username).None?
    ensures !o.resp.ProfileJson? ==> o.db == s
    ensures o.resp.ProfileJson? ==> !o.resp.profile.following && o.resp.profile.username == username
    ensures o.resp.ProfileJson? ==>
              && FindByName(s.users, username).Some? && FindByEmail(s.users, credential).Some?
              && FindByEmail(s.users, credential).value in o.db.users
              && FindByName(s.users, username).value !in o.db.users[FindByEmail(s.users, credential).value].following
  {
    Link(s, credential, username, false)
  }

  /** Following connects the target into the viewer's set and unfollowing
      disconnects it; nothing else in the table changes, and the table stays consistent. */
  lemma {:induction false} LinkEffect(s: Db, viewer: int, username: string, follow: bool)
    requires Consistent(s) && viewer in s.users
    ensures var o := Link(s, s.users[viewer].email, username, follow);
            && Consistent(o.db)
            && (FindByName(s.users, username).Some? ==>
                 var t := FindByName(s.users, username).value;
                 && o.resp == ProfileJson(ProfileOf(s.users[t], follow))
                 && o.db.users == s.users[viewer := s.users[viewer].(following :=
                      if follow then s.users[viewer].following + {t} else s.users[viewer].following - {t})])
  {
    FindByEmailFindsOwner(s.users, viewer);
    var o := Link(s, s.users[viewer].email, username, follow);
    if FindByName(s.users, username).Some? {
      var t := FindByName(s.users, username).value;
      assert o.db == Relink(s, viewer, t, follow);
      assert forall i, j :: i in o.db.users && j in o.db.users && o.db.users[i].email == o.db.users[j].email
               ==> s.users[i].email == s.users[j].email;
    }
  }

  /** Following twice leaves the same table and answer as following once; the
      same holds of unfollowing. */
  lemma {:induction false} LinkIdempotent(s: Db, credential: string, username: string, follow: bool)
    ensures var once := Link(s, credential, username, follow);
            Link(once.db, credential, username, follow) == once
  {
    var once := Link(s, credential, username, follow);
    SameLookups(s.users, once.db.users);
    if once.resp.ProfileJson? {
      var t := FindByName(s.users, username).value;
      var v := FindByEmail(s.users, credential).value;
      assert once.db == Relink(s, v, t, follow);
      assert once.db.users[t] == s.users[t].(following := once.db.users[t].following);
      var twice := Link(once.db, credential, username, follow);
      assert twice.db == Relink(once.db, v, t, follow);
      assert twice.db.users[v] == once.db.users[v];
    }
  }

  /** Unfollowing a user that is not followed changes nothing. */
  lemma UnfollowNotFollowedIsNoOp(s: Db, viewer: int, username: string)
    requires Consistent(s) && viewer in s.users
    requires FindByName(s.users, username).Some?
    requires FindByName(s.users, username).value !in s.users[viewer].following
    ensures Unfollow(s, s.users[viewer].email, username).db == s
  {
    LinkEffect(s, viewer, username, false);
    var t := FindByName(s.users, username).value;
    assert s.users[viewer].following - {t} == s.users[viewer].following;
    assert s.users[viewer := s.users[viewer]] == s.users;
  }

  /** Unfollow undoes a follow of a user that was not followed before. */
  lemma UnfollowUndoesFollow(s: Db, viewer: int, username: string)
    requires Consistent(s) && viewer in s.users
    requires FindByName(s.users, username).Some?
    requires FindByName(s.users, username).value !in s.users[viewer].following
    ensures Unfollow(Follow(s, s.users[viewer].email, username).db, s.users[viewer].email, username).db == s
  {
    var t := FindByName(s.users, username).value;
    var email := s.users[viewer].email;
    LinkEffect(s, viewer, username, true);
    var s1 := Follow(s, email, username).db;
    SameLookups(s.users, s1.users);
    assert s1.users[viewer].email == email;
    LinkEffect(s1, viewer, username, false);
    assert s1.users[viewer].following - {t} == s.users[viewer].following;
    assert s1.users[viewer := s1.users[viewer].(following := s.users[viewer].following)] == s.users;
  }

  /** After a follow, the viewer's view of the target's profile says `following`;
      after an unfollow it does not. */
  lemma LinkThenProfile(s: Db, viewer: int, username: string, follow: bool)
    requires Consistent(s) && viewer in s.users && s.users[viewer].email != ""
    requires FindByName(s.users, username).Some?
    ensures var email := s.users[viewer].email;
            var r := Profile(Link(s, email, username, follow).db, Some(email), username);
            r.ProfileJson? && r.profile.following == follow
  {
    var email := s.users[viewer].email;
    LinkEffect(s, viewer, username, follow);
    var s1 := Link(s, email, username, follow).db;
    SameLookups(s.users, s1.users);
    FollowingIsMembership(s1, viewer, username);
  }

  /** A user may follow itself: the request is not rejected. */
  lemma SelfFollowAllowed(s: Db, viewer: int)
    requires Consistent(s) && viewer in s.users
    requires FindByName(s.users, s.users[viewer].name) == Some(viewer)
    ensures var o := Follow(s, s.users[viewer].email, s.users[viewer].name);
            o.resp.ProfileJson? && viewer in o.db.users[viewer].following
  {
    LinkEffect(s, viewer, s.users[viewer].name, true);
  }

  /** GET `/:username`: a local `following` flag, set when the viewer's
      following relation, narrowed to the target's id, is not empty. */
  method GetProfile(db: Store, credential: Option<string>, username: string) returns (resp: Response)
    requires db.Valid()
    ensures resp == Profile(db.State(), credential, username)
  {
    var target := FindByName(db.users, username);
    if target.None? {
      return NotFound(username);
    }
    var user := db.users[target.value];
    var following := false;
    if Truthy(credential) {
      var result := FindByEmail(db.users, credential.value);
      if result.None? {
        return Unhandled(NullViewer);
      }
      var matching := db.users[result.value].following * {user.id};
      assert user.id in matching ==> |matching| > 0;
      assert user.id !in matching ==> matching == {};
      if |matching| > 0 {
        following := true;
      }
    }
    resp := ProfileJson(ProfileOf(user, following));
  }

  /** The `connect` / `disconnect` update shared by the two follow routes. */
  method UpdateFollowing(db: Store, credential: string, username: string, follow: bool) returns (resp: Response)
    requires db.Valid()
    modifies db
    ensures db.Valid()
    ensures Outcome(resp, db.State()) == Link(old(db.State()), credential, username, follow)
  {
    var target := FindByName(db.users, username);
    if target.None? {
      return NotFound(username);
    }
    var user := db.users[target.value];
    var viewer := FindByEmail(db.users, credential);
    if viewer.None? {
      return Unhandled(RecordNotFound);
    }
    var v := db.users[viewer.value];
    FindByEmailFindsOwner(db.users, viewer.value);
    LinkEffect(db.State(), viewer.value, username, follow);
    if follow {
      db.users := db.users[viewer.value := v.(following := v.following + {target.value})];
    } else {
      db.users := db.users[viewer.value := v.(following := v.following - {target.value})];
    }
    resp := ProfileJson(ProfileOf(user, follow));
  }

  /** POST `/:username/follow`. */
  method PostFollow(db: Store, credential: string, username: string) returns (resp: Response)
    requires db.Valid()
    modifies db
    ensures db.Valid()
    ensures Outcome(resp, db.State()) == Follow(old(db.State()), credential, username)
  {
    resp := UpdateFollowing(db, credential, username, true);
  }

  /** DELETE `/:username/follow`. */
  method DeleteFollow(db: Store, credential: string, username: string) returns (resp: Response)
    requires db.Valid()
    modifies db
    ensures db.Valid()
    ensures Outcome(resp, db.State()) == Unfollow(old(db.State()), credential, username)
  {
    resp := UpdateFollowing(db, credential, username, false);
  }

  /** The profile route: optional authentication, then the handler. A token that
      fails verification is not rejected; the viewer is anonymous. */
  function ProfileRoute(s: Db, authorization: Option<string>, username: string,
                        verify: string -> Option<string>): (r: Response)
    ensures verify(Auth.TokenOf(authorization)).None? ==> r == Profile(s, None, username)
    ensures verify(Auth.TokenOf(authorization)).Some? ==>
              r == Profile(s, verify(Auth.TokenOf(authorization)), username)
  {
    match Auth.Authenticate(Auth.TokenOf(authorization), verify, false)
    case Reject => Errors(401, [Auth.UnauthorizedRequest])
    case Proceed(credential) => Profile(s, credential, username)
  }

  /** The follow routes: required authentication, then the handler. A token that
      fails verification gets 401 and leaves the table unchanged. */
  function LinkRoute(s: Db, authorization: Option<string>, username: string,
                     verify: string -> Option<string>, follow: bool): (o: Outcome)
    ensures verify(Auth.TokenOf(authorization)).None? ==>
              o == Outcome(Errors(401, [Auth.UnauthorizedRequest]), s)
    ensures verify(Auth.TokenOf(authorization)).Some? ==>
              o == Link(s, verify(Auth.TokenOf(authorization)).value, username, follow)
  {
    match Auth.Authenticate(Auth.TokenOf(authorization), verify)
    case Reject => Outcome(Errors(401, [Auth.UnauthorizedRequest]), s)
    case Proceed(credential) => Link(s, credential.value, username, follow)
  }
}
