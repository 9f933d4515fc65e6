/**
 * The session holder of src/context/AuthContext.jsx: a four-field auth
 * state kept by the provider component, mirrored in three session-storage
 * slots. `JSON.stringify` and `JSON.parse` are an encode/decode pair the
 * provider is given; decoding yields None where `JSON.parse` would throw.
 * React's `useState`/`useEffect` machinery and `navigate` are not modelled:
 * each transition is a method, and the path a transition navigates to is
 * returned instead.
 */
module Session {
  import opened Options
  import opened Router

  const TokenKey: string := "token"
  const UserKey: string := "user"
  const RoleKey: string := "role"

  /** `authState`; the null fields of the JavaScript object are None here. */
  datatype AuthState<U> = AuthState(token: Option<string>, user: Option<U>, role: Option<string>, isAuthenticated: bool)

  /** The state `useState` starts from, and the one `logout` returns to. */
  function InitialState<U>(): (s: AuthState<U>)
    ensures s.token.None? && s.user.None? && s.role.None? && !s.isAuthenticated
  {
    AuthState(None, None, None, false)
  }

  function Authenticated<U>(token: string, user: U, role: string): (s: AuthState<U>)
    ensures s.isAuthenticated
    ensures s.token == Some(token) && s.user == Some(user) && s.role == Some(role)
  {
    AuthState(Some(token), Some(user), Some(role), true)
  }

  /** `JSON.stringify` never yields the empty string, and `JSON.parse` undoes it. */
  ghost predicate LawfulCodec<U(!new)>(encode: U -> string, decode: string -> Option<U>) {
    forall u :: encode(u) != "" && decode(encode(u)) == Some(u)
  }

  /** A slot reads as truthy: present and non-empty. */
  predicate Filled(items: map<string, string>, key: string) {
    key in items && items[key] != ""
  }

  /** The condition `token && user && role` of the mount-time effect. */
  predicate AllFilled(items: map<string, string>) {
    Filled(items, TokenKey) && Filled(items, UserKey) && Filled(items, RoleKey)
  }

  /**
   * The state after the mount-time effect runs over the storage `items`,
   * starting from `current`; None when `JSON.parse` of the user slot throws.
   */
  function Restore<U>(items: map<string, string>, decode: string -> Option<U>, current: AuthState<U>): (r: Option<AuthState<U>>)
    ensures !AllFilled(items) ==> r == Some(current)
    ensures AllFilled(items) && decode(items[UserKey]).None? ==> r.None?
    ensures AllFilled(items) && decode(items[UserKey]).Some? ==>
      r == Some(Authenticated(items[TokenKey], decode(items[UserKey]).value, items[RoleKey]))
  {
    if AllFilled(items) then
      match decode(items[UserKey])
      case None => None
      case Some(u) => Some(Authenticated(items[TokenKey], u, items[RoleKey]))
    else Some(current)
  }

  /** The storage after `login`'s three `setItem` calls. */
  function LoginSlots(items: map<string, string>, token: string, encodedUser: string, role: string): (r: map<string, string>)
    ensures TokenKey in r && UserKey in r && RoleKey in r
    ensures r[TokenKey] == token && r[UserKey] == encodedUser && r[RoleKey] == role
    ensures forall k :: k != TokenKey && k != UserKey && k != RoleKey ==>
      (k in r <==> k in items) && (k in r ==> r[k] == items[k])
  {
    items[TokenKey := token][UserKey := encodedUser][RoleKey := role]
  }

  /** The storage after `logout`'s three `removeItem` calls. */
  function LogoutSlots(items: map<string, string>): (r: map<string, string>)
    ensures TokenKey !in r && UserKey !in r && RoleKey !in r
    ensures forall k :: k != TokenKey && k != UserKey && k != RoleKey ==>
      (k in r <==> k in items) && (k in r ==> r[k] == items[k])
  {
    items - {TokenKey, UserKey, RoleKey}
  }

  /** The browser's `sessionStorage`: string slots that outlive a provider. */
  class SessionStorage {
    var items: map<string, string>

    constructor (items: map<string, string>)
      ensures this.items == items
    {
      this.items := items;
    }

    /** `getItem`: None where the browser returns null. */
    function GetItem(key: string): (r: Option<string>)
      reads this
      ensures r.Some? <==> key in items
      ensures r.Some? ==> r.value == items[key]
    {
      if key in items then Some(items[key]) else None
    }

    method SetItem(key: string, value: string)
      modifies this
      ensures items == old(items)[key := value]
    {
      items := items[key := value];
    }

    method RemoveItem(key: string)
      modifies this
      ensures items == old(items) - {key}
    {
      items := items - {key};
    }
  }

  /** `AuthProvider`: the auth state plus the storage and codec it works with. */
  class AuthProvider<U(!new)> {
    var state: AuthState<U>
    const storage: SessionStorage
    const encode: U -> string
    const decode: string -> Option<U>

    /** The first render: `useState` with every field empty. */
    constructor (storage: SessionStorage, encode: U -> string, decode: string -> Option<U>)
      ensures state == InitialState()
      ensures this.storage == storage && this.encode == encode && this.decode == decode
    {
      state := InitialState();
      this.storage := storage;
      this.encode := encode;
      this.decode := decode;
    }

    /**
     * The mount-time effect: read the three slots and, when all are filled,
     * switch to the authenticated state they describe. `parseFault` is true
     * when `JSON.parse` would throw; the state is then left alone.
     */
    method RestoreOnMount() returns (parseFault: bool)
      modifies this
      ensures parseFault == Restore(storage.items, decode, old(state)).None?
      ensures !parseFault ==> state == Restore(storage.items, decode, old(state)).value
      ensures parseFault ==> state == old(state)
    {
      parseFault := false;
      var token := storage.GetItem(TokenKey);
      var user := storage.GetItem(UserKey);
      var role := storage.GetItem(RoleKey);
      if token.Some? && token.value != "" && user.Some? && user.value != "" && role.Some? && role.value != "" {
        var parsed := decode(user.value);
        if parsed.Some? {
          state := Authenticated(token.value, parsed.value, role.value);
        } else {
          parseFault := true;
        }
      }
    }

    /** `login(token, user, role)`: write all three slots, then the state. */
    method Login(token: string, user: U, role: string) returns (navigateTo: string)
      modifies this, storage
      ensures storage.items == LoginSlots(old(storage.items), token, encode(user), role)
      ensures state == Authenticated(token, user, role)
      ensures navigateTo == DashboardPath
    {
      storage.SetItem(TokenKey, token);
      storage.SetItem(UserKey, encode(user));
      storage.SetItem(RoleKey, role);
      state := Authenticated(token, user, role);
      navigateTo := DashboardPath;
    }

    /** `logout`: remove exactly the three slots and go back to the initial state. */
    method Logout() returns (navigateTo: string)
      modifies this, storage
      ensures storage.items == LogoutSlots(old(storage.items))
      ensures state == InitialState()
      ensures navigateTo == LoginPath
    {
      storage.RemoveItem(TokenKey);
      storage.RemoveItem(UserKey);
      storage.RemoveItem(RoleKey);
      state := InitialState();
      navigateTo := LoginPath;
    }
  }

  /**
   * A reload after `login` with a non-empty token and role restores the
   * same token, user and role, authenticated.
   */
  lemma LoginThenRestore<U(!new)>(items: map<string, string>, encode: U -> string, decode: string -> Option<U>,
                                  token: string, user: U, role: string)
    requires LawfulCodec(encode, decode)
    requires token != "" && role != ""
    ensures Restore(LoginSlots(items, token, encode(user), role), decode, InitialState()) ==
      Some(Authenticated(token, user, role))
  {
  }

  /**
   * `login` with an empty token or role still authenticates the live state,
   * but a reload does not restore it: the slots are not all truthy.
   */
  lemma EmptyTokenNotRestored<U>(items: map<string, string>, decode: string -> Option<U>,
                                 token: string, encodedUser: string, role: string)
    requires token == "" || role == ""
    ensures Restore(LoginSlots(items, token, encodedUser, role), decode, InitialState()) == Some(InitialState())
  {
  }

  /** After `logout`, a reload leaves whatever state it starts from, so a fresh one stays signed out. */
  lemma LogoutThenRestore<U>(items: map<string, string>, decode: string -> Option<U>, current: AuthState<U>)
    ensures Restore(LogoutSlots(items), decode, current) == Some(current)
    ensures !Restore(LogoutSlots(items), decode, InitialState()).value.isAuthenticated
  {
  }

  /** The reload after a login, as two providers over one storage object. */
  method ReloadAfterLogin<U(!new)>(storage: SessionStorage, encode: U -> string, decode: string -> Option<U>,
                                   token: string, user: U, role: string)
    returns (reloaded: AuthProvider<U>)
    requires LawfulCodec(encode, decode)
    requires token != "" && role != ""
    modifies storage
    ensures reloaded.state == Authenticated(token, user, role)
  {
    var first := new AuthProvider(storage, encode, decode);
    var _ := first.Login(token, user, role);
    reloaded := new AuthProvider(storage, encode, decode);
    var fault := reloaded.RestoreOnMount();
    LoginThenRestore(old(storage.items), encode, decode, token, user, role);
  }

  /** The reload after a logout comes up signed out. */
  method ReloadAfterLogout<U(!new)>(storage: SessionStorage, encode: U -> string, decode: string -> Option<U>)
    returns (reloaded: AuthProvider<U>)
    modifies storage
    ensures reloaded.state == InitialState()
  {
    var first := new AuthProvider(storage, encode, decode);
    var _ := first.Logout();
    reloaded := new AuthProvider(storage, encode, decode);
    var fault := reloaded.RestoreOnMount();
  }
}
