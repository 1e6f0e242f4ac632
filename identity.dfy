/**
 * The persistent identity store the authentication service reads and
 * writes (the user table behind apps/backend/src/users/users.service.ts),
 * kept abstract: a table of user rows looked up by a unique column.
 */
module Identity {
  import opened Wrappers

  /** A user row. `password` is the bcrypt hash; accounts created through Google have none. */
  datatype User = User(
    id: nat,
    username: string,
    email: string,
    password: Option<string>,
    firstName: Option<string>,
    lastName: Option<string>,
    picture: Option<string>,
    googleId: Option<string>)

  /** A user row as `findById` returns it: every column except the password. */
  datatype Profile = Profile(
    id: nat,
    username: string,
    email: string,
    firstName: Option<string>,
    lastName: Option<string>,
    picture: Option<string>,
    googleId: Option<string>)

  function ProfileOf(u: User): Profile {
    Profile(u.id, u.username, u.email, u.firstName, u.lastName, u.picture, u.googleId)
  }

  /** `findUnique` on a column: the row satisfying `matches`, or `null` when there is none. */
  function FindBy(users: seq<User>, matches: User -> bool): (r: Option<User>)
    ensures r.Some? ==> r.value in users && matches(r.value)
    ensures r.None? ==> forall u :: u in users ==> !matches(u)
  {
    if |users| == 0 then None
    else if matches(users[0]) then Some(users[0])
    else FindBy(users[1..], matches)
  }

  function FindByUsername(users: seq<User>, username: string): (r: Option<User>)
    ensures r.None? <==> forall u :: u in users ==> u.username != username
  {
    FindBy(users, (u: User) => u.username == username)
  }

  function FindByEmail(users: seq<User>, email: string): (r: Option<User>)
    ensures r.None? <==> forall u :: u in users ==> u.email != email
  {
    FindBy(users, (u: User) => u.email == email)
  }

  function FindById(users: seq<User>, id: nat): (r: Option<User>)
    ensures r.None? <==> forall u :: u in users ==> u.id != id
    ensures r.Some? ==> r.value in users && r.value.id == id
  {
    FindBy(users, (u: User) => u.id == id)
  }

  /** The table's unique columns: no two rows share an id, a username or an email. */
  ghost predicate UniqueColumns(users: seq<User>) {
    forall i, j :: 0 <= i < j < |users| ==>
      && users[i].id != users[j].id
      && users[i].username != users[j].username
      && users[i].email != users[j].email
  }

  /** A row whose id, username and email are all new keeps the columns unique. */
  lemma AppendKeepsColumnsUnique(users: seq<User>, user: User)
    requires UniqueColumns(users)
    requires forall u :: u in users ==> u.id != user.id && u.username != user.username && u.email != user.email
    ensures UniqueColumns(users + [user])
  {
    var after := users + [user];
    forall i, j | 0 <= i < j < |after|
      ensures after[i].id != after[j].id && after[i].username != after[j].username && after[i].email != after[j].email
    {
      assert users[i] in users;
      if j < |users| {
        assert after[i] == users[i] && after[j] == users[j];
      }
    }
  }

  /** In a table with unique ids, `findById` returns the one row with that id. */
  lemma FindByIdUnique(users: seq<User>, u: User)
    requires UniqueColumns(users) && u in users
    ensures FindById(users, u.id) == Some(u)
  {
    var r := FindById(users, u.id);
    var i :| 0 <= i < |users| && users[i] == u;
    var j :| 0 <= j < |users| && users[j] == r.value;
  }

  /** In a table with unique usernames, `findByUsername` returns the one row with that username. */
  lemma FindByUsernameUnique(users: seq<User>, u: User)
    requires UniqueColumns(users) && u in users
    ensures FindByUsername(users, u.username) == Some(u)
  {
    var r := FindByUsername(users, u.username);
    var i :| 0 <= i < |users| && users[i] == u;
    var j :| 0 <= j < |users| && users[j] == r.value;
  }
}
