/** The user service: registered users keyed by a generated user id, their passwords
    stored hashed, a login that scans the users in registration order, and a lookup that
    never discloses the stored hash. */
module UserService {
  import opened Common

  /** The fields posted to `POST /users/register`. */
  datatype UserForm = UserForm(
    username: string,
    email: string,
    password: string,
    fullName: string,
    phoneNumber: string)

  /** A stored user record: the posted fields, the id, and the hashed password in place
      of the plaintext. */
  datatype User = User(
    userId: string,
    username: string,
    email: string,
    password: string,
    fullName: string,
    phoneNumber: string)

  /** What `GET /users/{user_id}` returns: the record without its `password` field. */
  datatype PublicUser = PublicUser(
    userId: string,
    username: string,
    email: string,
    fullName: string,
    phoneNumber: string)

  /** What a successful registration answers. */
  datatype Registered = Registered(message: string, userId: string)

  /** What a successful login answers. */
  datatype LoginReply = LoginReply(message: string, userId: string, username: string)

  /** The record stored for `form` under `id`, its password hashed by `hash`. */
  function Stored(form: UserForm, id: string, hash: string -> string): User {
    User(id, form.username, form.email, hash(form.password), form.fullName, form.phoneNumber)
  }

  function Public(u: User): PublicUser {
    PublicUser(u.userId, u.username, u.email, u.fullName, u.phoneNumber)
  }

  /** The public view of a record does not depend on its password: two records that
      differ only there look the same, so nothing about the hash is disclosed. */
  lemma PublicHidesPassword(u: User, v: User)
    requires u.(password := v.password) == v
    ensures Public(u) == Public(v)
  {
  }

  /** A login matches a record when the usernames agree and the record holds the hash of
      the password given. */
  predicate LoginMatches(u: User, username: string, hashed: string) {
    u.username == username && u.password == hashed
  }

  class UserStore {
    /** `hash_password`; SHA-256 in hexadecimal in the service, any function here. */
    const hash: string -> string
    var users: map<string, User>
    /** The order in which the ids were inserted. */
    var order: seq<string>

    predicate Valid()
      reads this
    {
      OrderedDict(order, users) && forall k :: k in users ==> users[k].userId == k
    }

    constructor (hash: string -> string)
      ensures Valid() && this.hash == hash && users == map[] && order == []
    {
      this.hash := hash;
      users := map[];
      order := [];
    }

    /** `POST /users/register` with `id` the fresh id drawn for the new user. The duplicate
        check looks the username up among the KEYS, which are user ids, so it refuses only
        a username that equals an existing user id. */
    method RegisterUser(form: UserForm, id: string) returns (r: Result<Registered>)
      requires Valid() && id !in users
      modifies this
      ensures Valid()
      ensures r.Err? <==> form.username in old(users)
      ensures r.Err? ==> r == Err(400, "Username already exists") && users == old(users) && order == old(order)
      ensures r.Ok? ==>
        && r.value == Registered("User registered successfully", id)
        && users == old(users)[id := Stored(form, id, hash)]
        && order == old(order) + [id]
    {
      if form.username in users {
        return Err(400, "Username already exists");
      }
      ValuesInsert(order, users, id, Stored(form, id, hash));
      users := users[id := Stored(form, id, hash)];
      order := order + [id];
      r := Ok(Registered("User registered successfully", id));
    }

    /** `POST /users/login`: the first user, in registration order, with this username and
        the hash of this password; 401 when there is none. Reads the table only. */
    method LoginUser(username: string, password: string) returns (r: Result<LoginReply>)
      requires Valid()
      ensures r.Err? <==> forall i :: 0 <= i < |order| ==> !LoginMatches(users[order[i]], username, hash(password))
      ensures r.Err? ==> r == Err(401, "Invalid credentials")
      ensures r.Ok? ==> exists i ::
        && 0 <= i < |order|
        && LoginMatches(users[order[i]], username, hash(password))
        && (forall j :: 0 <= j < i ==> !LoginMatches(users[order[j]], username, hash(password)))
        && r.value == LoginReply("Login successful", order[i], username)
    {
      var i := 0;
      while i < |order|
        invariant 0 <= i <= |order|
        invariant forall j :: 0 <= j < i ==> !LoginMatches(users[order[j]], username, hash(password))
      {
        var user := users[order[i]];
        if user.username == username && user.password == hash(password) {
          return Ok(LoginReply("Login successful", user.userId, user.username));
        }
        i := i + 1;
      }
      r := Err(401, "Invalid credentials");
    }

    /** `GET /users/{user_id}`: a copy of the record without its password; the stored record
        keeps it. Reads the table only. */
    method GetUser(id: string) returns (r: Result<PublicUser>)
      requires Valid()
      ensures r.Ok? <==> id in users
      ensures r.Err? ==> r == Err(404, "User not found")
      ensures r.Ok? ==> r.value == Public(users[id]) && r.value.userId == id
    {
      if id !in users {
        return Err(404, "User not found");
      }
      r := Ok(Public(users[id]));
    }
  }

  /** Two registrations with the same username both succeed, because the duplicate check
      compares the username with user ids; their logins with the same password then
      always answer with the first of the two. */
  method DuplicateUsernameAccepted(hash: string -> string, form: UserForm, first: string, second: string)
    returns (r1: Result<Registered>, r2: Result<Registered>, login: Result<LoginReply>)
    requires first != second && form.username != first && form.username != second
    ensures r1 == Ok(Registered("User registered successfully", first))
    ensures r2 == Ok(Registered("User registered successfully", second))
    ensures login == Ok(LoginReply("Login successful", first, form.username))
  {
    var store := new UserStore(hash);
    r1 := store.RegisterUser(form, first);
    r2 := store.RegisterUser(form, second);
    assert store.order == [first, second];
    assert LoginMatches(store.users[store.order[0]], form.username, hash(form.password));
    login := store.LoginUser(form.username, form.password);
  }

  /** A username that equals an existing user id is refused. */
  method UsernameEqualToIdRefused(hash: string -> string, form: UserForm, id: string, other: string)
    returns (r: Result<Registered>)
    requires form.username == id && other != id
    ensures r == Err(400, "Username already exists")
  {
    var store := new UserStore(hash);
    var _ := store.RegisterUser(form.(username := "someone-else"), id);
    r := store.RegisterUser(form, other);
  }
}
