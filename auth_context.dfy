/**
 * The authentication context (src/components/Context/AuthContext.tsx): the signed-in user's name
 * and flag, kept in React state and persisted in the browser's session storage, with `login`,
 * `logout` and the resynchronisation on a storage event.
 */
module Auth {
  import opened Wrappers

  /** The browser's session storage: string keys to string values. */
  type Storage = map<string, string>

  const AuthenticatedKey: string := "authenticated"
  const UserKey: string := "user"
  /** Written by the login request, read by the other requests; never touched here. */
  const JwtKey: string := "jwt"

  /** `sessionStorage.getItem('authenticated') === 'true'`. */
  function StoredAuthenticated(s: Storage): bool
  {
    Get(s, AuthenticatedKey) == Some("true")
  }

  /** `sessionStorage.getItem('user') ?? ''`. */
  function StoredUsername(s: Storage): string
  {
    Get(s, UserKey).GetOr("")
  }

  /** The storage after `login(username)`: both entries written, every other entry kept. */
  function LoginStorage(s: Storage, username: string): (r: Storage)
    ensures StoredAuthenticated(r) && StoredUsername(r) == username
    ensures r.Keys == s.Keys + {AuthenticatedKey, UserKey}
    ensures forall k :: k in s && k != AuthenticatedKey && k != UserKey ==> r[k] == s[k]
  {
    s[AuthenticatedKey := "true"][UserKey := username]
  }

  /** The storage after `logout()`: both entries removed, every other entry kept. */
  function LogoutStorage(s: Storage): (r: Storage)
    ensures !StoredAuthenticated(r) && StoredUsername(r) == ""
    ensures r.Keys == s.Keys - {AuthenticatedKey, UserKey}
    ensures forall k :: k in r ==> r[k] == s[k]
  {
    s - {AuthenticatedKey, UserKey}
  }

  /** Logging out twice is logging out once. */
  lemma LogoutIsIdempotent(s: Storage)
    ensures LogoutStorage(LogoutStorage(s)) == LogoutStorage(s)
  {
  }

  /** Logging in then out leaves the storage as logging out alone would: nothing of the session
      survives but what was there besides it. */
  lemma LoginThenLogout(s: Storage, username: string)
    ensures LogoutStorage(LoginStorage(s, username)) == LogoutStorage(s)
  {
    var a := LogoutStorage(LoginStorage(s, username));
    var b := LogoutStorage(s);
    assert a.Keys == b.Keys;
  }

  /** The token the login request stored outlives a logout. */
  lemma LogoutKeepsToken(s: Storage)
    requires JwtKey in s
    ensures Get(LogoutStorage(s), JwtKey) == Some(s[JwtKey])
  {
  }

  class AuthProvider {
    var storage: Storage
    var username: string
    var isAuthenticated: bool

    /** React state agrees with what is stored. */
    predicate Synced()
      reads this
    {
      isAuthenticated == StoredAuthenticated(storage) && username == StoredUsername(storage)
    }

    /** Both pieces of state start from the storage. */
    constructor (initial: Storage)
      ensures storage == initial && Synced()
    {
      storage := initial;
      username := StoredUsername(initial);
      isAuthenticated := StoredAuthenticated(initial);
    }

    method Login(name: string)
      modifies this
      ensures storage == LoginStorage(old(storage), name)
      ensures isAuthenticated && username == name && Synced()
    {
      storage := storage[AuthenticatedKey := "true"];
      storage := storage[UserKey := name];
      isAuthenticated := true;
      username := name;
    }

    method Logout()
      modifies this
      ensures storage == LogoutStorage(old(storage))
      ensures !isAuthenticated && username == "" && Synced()
    {
      storage := storage - {AuthenticatedKey};
      storage := storage - {UserKey};
      isAuthenticated := false;
      username := "";
    }

    /** The login request stores the token it received. */
    method StoreToken(token: string)
      modifies this
      ensures storage == old(storage)[JwtKey := token]
      ensures username == old(username) && isAuthenticated == old(isAuthenticated)
    {
      storage := storage[JwtKey := token];
    }

    /** Another document changes the session storage under this provider. */
    method StorageWrittenElsewhere(s: Storage)
      modifies this
      ensures storage == s && username == old(username) && isAuthenticated == old(isAuthenticated)
    {
      storage := s;
    }

    /** The storage listener: only the flag is read back; the name keeps its old value. */
    method HandleStorageChange()
      modifies this
      ensures storage == old(storage) && username == old(username)
      ensures isAuthenticated == StoredAuthenticated(storage)
    {
      isAuthenticated := StoredAuthenticated(storage);
    }
  }

  /** `useAuth`: the context value, or the error thrown outside a provider. */
  function UseAuth(provided: Option<AuthProvider>): (r: Result<AuthProvider>)
    ensures r.Err? <==> provided.None?
    ensures r.Ok? ==> r.value == provided.value
    ensures r.Err? ==> r.error == "useAuth must be used within an AuthProvider"
  {
    match provided
    case Some(p) => Ok(p)
    case None => Err("useAuth must be used within an AuthProvider")
  }
}
