/** The user table as one in-memory store: a map from user id to record, the
    next id the table hands out, and the two lookups the handlers use. */
module UserStore {
  import opened Http
  import opened SetFacts

  /** A stored user: `password` holds the digest, `following` the ids this user follows. */
  datatype User = User(id: int, email: string, name: string, password: string,
                       bio: Option<string>, image: Option<string>, following: set<int>)

  /** The whole table; ids are handed out in increasing order from `nextId`. */
  datatype Db = Db(users: map<int, User>, nextId: int)

  /** What a handler answers and the table it leaves behind. */
  datatype Outcome = Outcome(resp: Response, db: Db)

  /** Email is a unique column (the handlers look users up by it with `findUnique`). */
  predicate UniqueEmails(users: map<int, User>)
  {
    forall i, j :: i in users && j in users && users[i].email == users[j].email ==> i == j
  }

  /** Every record sits under its own id, below `nextId`, and follows only stored users. */
  ghost predicate Consistent(s: Db)
  {
    && 1 <= s.nextId
    && (forall id :: id in s.users ==>
          && s.users[id].id == id
          && 1 <= id < s.nextId
          && s.users[id].following <= s.users.Keys)
    && UniqueEmails(s.users)
  }

  lemma {:induction false} LeastExists(ids: set<int>)
    requires ids != {}
    ensures exists m :: m in ids && forall i :: i in ids ==> m <= i
  {
    var x := Pick(ids);
    var rest := ids - {x};
    Inhabited(rest);
    if rest == {} {
      forall i | i in ids ensures x <= i {
        assert i !in rest;
      }
    } else {
      LeastExists(rest);
      var m :| m in rest && forall i :: i in rest ==> m <= i;
      var least := if x < m then x else m;
      forall i | i in ids ensures least <= i {
        if i != x { assert i in rest; }
      }
      assert least in ids;
    }
  }

  /** The smallest id of a set, or None for the empty set. */
  function Least(ids: set<int>): (r: Option<int>)
    ensures r.None? <==> ids == {}
    ensures r.Some? ==> r.value in ids && forall i :: i in ids ==> r.value <= i
  {
    if ids == {} then None
    else
      LeastExists(ids);
      var m :| m in ids && forall i :: i in ids ==> m <= i;
      Some(m)
  }

  /** `findUnique({ where: { email } })`. */
  function FindByEmail(users: map<int, User>, email: string): (r: Option<int>)
    ensures r.None? <==> forall id :: id in users ==> users[id].email != email
    ensures r.Some? ==> r.value in users && users[r.value].email == email
  {
    var ids := set id | id in users && users[id].email == email;
    if forall id :: id in users ==> users[id].email != email then
      assert forall m :: m !in ids;
      Inhabited(ids);
      Least(ids)
    else
      var j :| j in users && users[j].email == email;
      assert j in ids;
      Least(ids)
  }

  /** `findFirst({ where: { name } })`: names need not be unique, and the model
      answers the user with the smallest id among those that carry the name. */
  function FindByName(users: map<int, User>, name: string): (r: Option<int>)
    ensures r.None? <==> forall id :: id in users ==> users[id].name != name
    ensures r.Some? ==> r.value in users && users[r.value].name == name
    ensures r.Some? ==> forall id :: id in users && users[id].name == name ==> r.value <= id
  {
    var ids := set id | id in users && users[id].name == name;
    if forall id :: id in users ==> users[id].name != name then
      assert forall m :: m !in ids;
      Inhabited(ids);
      Least(ids)
    else
      var j :| j in users && users[j].name == name;
      assert j in ids;
      assert forall id :: id in users && users[id].name == name ==> id in ids;
      Least(ids)
  }

  /** With unique emails, the email lookup finds exactly the owner of that email. */
  lemma FindByEmailFindsOwner(users: map<int, User>, id: int)
    requires UniqueEmails(users) && id in users
    ensures FindByEmail(users, users[id].email) == Some(id)
  {
  }

  /** Two tables with the same ids, emails and names answer both lookups alike. */
  lemma SameLookups(a: map<int, User>, b: map<int, User>)
    requires a.Keys == b.Keys
    requires forall id :: id in a ==> a[id].email == b[id].email && a[id].name == b[id].name
    ensures forall e :: FindByEmail(a, e) == FindByEmail(b, e)
    ensures forall n :: FindByName(a, n) == FindByName(b, n)
  {
    forall e ensures FindByEmail(a, e) == FindByEmail(b, e) {
      var sa := set id | id in a && a[id].email == e;
      var sb := set id | id in b && b[id].email == e;
      assert forall id :: id in sa <==> id in sb;
      assert sa == sb;
    }
    forall n ensures FindByName(a, n) == FindByName(b, n) {
      var sa := set id | id in a && a[id].name == n;
      var sb := set id | id in b && b[id].name == n;
      assert forall id :: id in sa <==> id in sb;
      assert sa == sb;
    }
  }

  /** The `user` object built from a stored record and a token. */
  function View(u: User, token: Option<string>): UserView
  {
    UserView(u.email, token, u.name, u.bio, u.image)
  }

  /** The user table the handlers read and update in place. */
  class Store {
    var users: map<int, User>
    var nextId: int

    function State(): Db
      reads this
    {
      Db(users, nextId)
    }

    ghost predicate Valid()
      reads this
    {
      Consistent(State())
    }

    constructor ()
      ensures Valid() && users == map[] && nextId == 1
    {
      users := map[];
      nextId := 1;
    }
  }
}
