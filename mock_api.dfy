/**
 * The mock entity store of src/api/auth.js: a module-level table of
 * accounts seeded with two entries, read-only per-account lists of studies
 * and addresses, and the five operations the file exports. The artificial
 * 500 ms delay before each promise resolves is dropped: every operation is
 * synchronous here.
 */
module MockApi {
  import opened Options
  import opened Decimal

  /** A stored account, password included. */
  datatype User = User(id: int, name: string, email: string, password: string, role: string)

  /** The identity `login` hands out: no role and no password. */
  datatype Identity = Identity(id: int, name: string, email: string)

  /** One entry of `getUsers`: everything but the password. */
  datatype Listing = Listing(id: int, name: string, email: string, role: string)

  datatype Study = Study(id: int, institution: string, degree: string, year: int)

  datatype Address = Address(id: int, street: string, city: string, state: string, zip: string, country: string)

  /**
   * What a caller passes to `createUser`. The create-user dialog always
   * supplies name, email and role; `id` and `password` may or may not be
   * present, and the store treats each differently.
   */
  datatype UserData = UserData(id: Option<int>, name: string, email: string, role: string, password: Option<string>)

  datatype LoginResult =
    | LoginOk(token: string, user: Identity, role: string)
    | LoginFailed(message: string)

  const InvalidCredentials: string := "Invalid email or password"
  const DefaultPassword: string := "defaultPassword"
  const TokenPrefix: string := "mock-token-"

  function SeedUsers(): seq<User> {
    [ User(1, "Admin User", "admin@example.com", "password123", "admin"),
      User(2, "Regular User", "user@example.com", "password123", "user") ]
  }

  function SeedStudies(): map<int, seq<Study>> {
    map[1 := [ Study(1, "Harvard University", "Computer Science", 2015),
               Study(2, "MIT", "Master in AI", 2017) ],
        2 := [ Study(3, "Stanford University", "Software Engineering", 2018) ]]
  }

  function SeedAddresses(): map<int, seq<Address>> {
    map[1 := [ Address(1, "123 Main St", "Boston", "MA", "02108", "USA") ],
        2 := [ Address(2, "456 Oak Ave", "San Francisco", "CA", "94102", "USA") ]]
  }

  /** The predicate `login` hands to `find`: both fields compared exactly. */
  predicate Matches(u: User, email: string, password: string) {
    u.email == email && u.password == password
  }

  /** `Array.prototype.find` with that predicate: the index of the first match. */
  function FindFirst(users: seq<User>, email: string, password: string): (r: Option<nat>)
    ensures r.None? <==> forall i :: 0 <= i < |users| ==> !Matches(users[i], email, password)
    ensures r.Some? ==> r.value < |users| && Matches(users[r.value], email, password)
    ensures r.Some? ==> forall j :: 0 <= j < r.value ==> !Matches(users[j], email, password)
  {
    if users == [] then None
    else if Matches(users[0], email, password) then Some(0)
    else match FindFirst(users[1..], email, password)
      case None => None
      case Some(k) => Some(k + 1)
  }

  /** Appending a record changes the first match only when there was none. */
  lemma {:induction false} FindFirstAppend(users: seq<User>, u: User, email: string, password: string)
    ensures FindFirst(users + [u], email, password) ==
      if FindFirst(users, email, password).Some? then FindFirst(users, email, password)
      else if Matches(u, email, password) then Some(|users|)
      else None
  {
    if users != [] {
      assert (users + [u])[1..] == users[1..] + [u];
      FindFirstAppend(users[1..], u, email, password);
    }
  }

  /** The token `login` issues for an account id. */
  function Token(id: int): (t: string)
    ensures |t| > |TokenPrefix| && t[..|TokenPrefix|] == TokenPrefix
  {
    TokenPrefix + IntToString(id)
  }

  /** Reads the account id back out of a token. */
  function TokenId(t: string): Option<int> {
    if |t| >= |TokenPrefix| && t[..|TokenPrefix|] == TokenPrefix then ParseInt(t[|TokenPrefix|..]) else None
  }

  /** A token carries its account's id, so distinct ids get distinct tokens. */
  lemma TokenCarriesId(id: int, other: int)
    ensures TokenId(Token(id)) == Some(id)
    ensures Token(id) == Token(other) ==> id == other
  {
    assert Token(id)[|TokenPrefix|..] == IntToString(id);
    assert Token(other)[|TokenPrefix|..] == IntToString(other);
    ParseIntToString(id);
    IntToStringInjective(id, other);
  }

  /** The `users.map` projection of `getUsers`, over a sequence. */
  function Roster(users: seq<User>): (r: seq<Listing>)
    ensures |r| == |users|
    ensures forall i :: 0 <= i < |r| ==>
      r[i] == Listing(users[i].id, users[i].name, users[i].email, users[i].role)
  {
    if users == [] then []
    else [Listing(users[0].id, users[0].name, users[0].email, users[0].role)] + Roster(users[1..])
  }

  /** Account ids equal position + 1, as the seed has them and `createUser` assigns them. */
  ghost predicate IdsArePositions(users: seq<User>) {
    forall i :: 0 <= i < |users| ==> users[i].id == i + 1
  }

  /** With ids at their positions, no two accounts share an id. */
  lemma PositionalIdsDistinct(users: seq<User>, i: int, j: int)
    requires IdsArePositions(users)
    requires 0 <= i < |users| && 0 <= j < |users| && i != j
    ensures users[i].id != users[j].id
  {
  }

  /** The record `createUser` builds: `{ id: length + 1, ...userData, password }`. */
  function NewRecord(length: nat, data: UserData): (u: User)
    ensures u.password == DefaultPassword
    ensures data.id.None? ==> u.id == length + 1
    ensures data.id.Some? ==> u.id == data.id.value
    ensures u.name == data.name && u.email == data.email && u.role == data.role
  {
    User(if data.id.Some? then data.id.value else length + 1,
         data.name, data.email, DefaultPassword, data.role)
  }

  /** The module-level state of src/api/auth.js. */
  class UserStore {
    var users: seq<User>
    var studies: map<int, seq<Study>>
    var addresses: map<int, seq<Address>>

    /** The store as the module is first loaded. */
    constructor ()
      ensures users == SeedUsers() && studies == SeedStudies() && addresses == SeedAddresses()
      ensures Dense()
    {
      users := SeedUsers();
      studies := SeedStudies();
      addresses := SeedAddresses();
    }

    /**
     * Ids sit at their positions and every study or address list belongs to
     * an id in 1..|users|. The seed has this shape and id-free creation
     * keeps it.
     */
    ghost predicate Dense()
      reads this
    {
      IdsArePositions(users) &&
      (forall k :: k in studies ==> 1 <= k <= |users|) &&
      (forall k :: k in addresses ==> 1 <= k <= |users|)
    }

    /** `login`: the first account whose email and password both match. */
    function Login(email: string, password: string): (r: LoginResult)
      reads this
      ensures r.LoginOk? <==> exists i :: 0 <= i < |users| && Matches(users[i], email, password)
      ensures r.LoginOk? ==>
        exists i :: (0 <= i < |users| && Matches(users[i], email, password) &&
          (forall j :: 0 <= j < i ==> !Matches(users[j], email, password)) &&
          r.token == Token(users[i].id) &&
          r.user == Identity(users[i].id, users[i].name, users[i].email) &&
          r.role == users[i].role)
      ensures r.LoginFailed? ==> r.message == InvalidCredentials
    {
      match FindFirst(users, email, password)
      case None => LoginFailed(InvalidCredentials)
      case Some(i) =>
        var u := users[i];
        LoginOk(Token(u.id), Identity(u.id, u.name, u.email), u.role)
    }

    /** `getUsers`: every account, in table order, without its password. */
    function GetUsers(): (r: seq<Listing>)
      reads this
      ensures |r| == |users|
      ensures forall i :: 0 <= i < |r| ==>
        r[i].id == users[i].id && r[i].name == users[i].name &&
        r[i].email == users[i].email && r[i].role == users[i].role
    {
      Roster(users)
    }

    /** `getUserStudies`: the stored list for the id, or `[]` when there is none. */
    function GetUserStudies(userId: int): (r: seq<Study>)
      reads this
      ensures userId in studies ==> r == studies[userId]
      ensures userId !in studies ==> r == []
    {
      if userId in studies then studies[userId] else []
    }

    /** `getUserAddresses`: the stored list for the id, or `[]` when there is none. */
    function GetUserAddresses(userId: int): (r: seq<Address>)
      reads this
      ensures userId in addresses ==> r == addresses[userId]
      ensures userId !in addresses ==> r == []
    {
      if userId in addresses then addresses[userId] else []
    }

    /**
     * `createUser`: appends the new record and returns it, password included.
     * An id in the caller's data wins over `length + 1`; a password in it
     * never does.
     */
    method CreateUser(data: UserData) returns (created: User)
      modifies this
      ensures created == NewRecord(|old(users)|, data)
      ensures users == old(users) + [created]
      ensures studies == old(studies) && addresses == old(addresses)
      ensures old(Dense()) && data.id.None? ==> Dense()
      ensures old(Dense()) && data.id.None? ==>
        GetUserStudies(created.id) == [] && GetUserAddresses(created.id) == []
      ensures Login(data.email, DefaultPassword).LoginOk?
    {
      created := NewRecord(|users|, data);
      FindFirstAppend(users, created, data.email, DefaultPassword);
      users := users + [created];
    }
  }

  /** What `login` returns about an account agrees with the `getUsers` entry for it. */
  lemma LoginAgreesWithRoster(store: UserStore, email: string, password: string)
    ensures store.Login(email, password).LoginOk? ==>
      var r := store.Login(email, password);
      exists l :: l in store.GetUsers() && l.id == r.user.id && l.name == r.user.name &&
        l.email == r.user.email && l.role == r.role
  {
    var r := store.Login(email, password);
    if r.LoginOk? {
      var i :| 0 <= i < |store.users| && Matches(store.users[i], email, password) &&
        r.token == Token(store.users[i].id) &&
        r.user == Identity(store.users[i].id, store.users[i].name, store.users[i].email) &&
        r.role == store.users[i].role;
      assert store.GetUsers()[i] in store.GetUsers();
    }
  }

  /** Both seeded accounts log in with their seeded credentials. */
  lemma SeedLogins(store: UserStore)
    requires store.users == SeedUsers()
    ensures store.Login("admin@example.com", "password123") ==
      LoginOk("mock-token-1", Identity(1, "Admin User", "admin@example.com"), "admin")
    ensures store.Login("user@example.com", "password123") ==
      LoginOk("mock-token-2", Identity(2, "Regular User", "user@example.com"), "user")
    ensures store.Login("admin@example.com", "wrong").LoginFailed?
  {
  }
}
