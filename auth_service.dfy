/**
 * The session persistence of the auth service: `localStorage` is a key/value
 * store of strings; the token lives under `auth_token` and the JSON-encoded
 * user under `auth_user`. Backend replies are inputs, and JSON encoding and
 * decoding of a user is a pair of functions given by the caller.
 */
module AuthService {
  import opened Wrappers
  import opened Types

  const TokenKey := "auth_token"
  const UserKey := "auth_user"

  /**
   * `JSON.stringify` and `JSON.parse` restricted to users; `parse` yields
   * `None` where `JSON.parse` throws or does not produce a user.
   */
  datatype UserCodec = UserCodec(stringify: User -> string, parse: string -> Option<User>)

  /** What the service needs of the codec for `u`: its encoding is non-empty and decodes back to `u`. */
  predicate RoundTrips(codec: UserCodec, u: User) {
    codec.stringify(u) != [] && codec.parse(codec.stringify(u)) == Some(u)
  }

  /** The browser's `localStorage`. */
  class Storage {
    var items: map<string, string>

    constructor (initial: map<string, string>)
      ensures items == initial
    {
      items := initial;
    }

    /** `getItem(key)`: the stored string, or `null`. */
    function GetItem(key: string): (v: Option<string>)
      reads this
      ensures v.Some? <==> key in items
      ensures v.Some? ==> v.value == items[key]
    {
      if key in items then Some(items[key]) else None
    }

    method SetItem(key: string, value: string)
      modifies this
      ensures items == old(items)[key := value]
    {
      items := items[key := value];
    }

    method RemoveItem(key: string)
      modifies this
      ensures items == old(items) - {key}
    {
      items := items - {key};
    }
  }

  // ---------------------------------------------------------------------------
  // The readers, on the stored map
  // ---------------------------------------------------------------------------

  /** `getToken()` on the stored map. */
  function TokenIn(items: map<string, string>): (t: Option<string>)
    ensures t.Some? <==> TokenKey in items
    ensures t.Some? ==> t.value == items[TokenKey]
  {
    if TokenKey in items then Some(items[TokenKey]) else None
  }

  /** `Boolean(getToken())`: a token is stored and it is not the empty string. */
  predicate HasToken(items: map<string, string>) {
    TokenIn(items).Some? && TokenIn(items).value != []
  }

  /** `getStoredUser()` on the stored map: nothing for a missing or empty entry, else the decoded user. */
  function UserIn(items: map<string, string>, codec: UserCodec): (u: Option<User>)
    ensures UserKey !in items || items[UserKey] == [] ==> u.None?
    ensures UserKey in items && items[UserKey] != [] ==> u == codec.parse(items[UserKey])
  {
    if UserKey !in items || items[UserKey] == [] then None else codec.parse(items[UserKey])
  }

  /** `getToken()`. */
  function GetToken(store: Storage): (t: Option<string>)
    reads store
    ensures t == TokenIn(store.items)
  {
    store.GetItem(TokenKey)
  }

  /** `getStoredUser()`. */
  function GetStoredUser(store: Storage, codec: UserCodec): (u: Option<User>)
    reads store
    ensures u == UserIn(store.items, codec)
  {
    var raw := store.GetItem(UserKey);
    if raw.None? || raw.value == [] then None else codec.parse(raw.value)
  }

  /** `isAuthenticated()`. */
  function IsAuthenticated(store: Storage): (b: bool)
    reads store
    ensures b <==> TokenKey in store.items && store.items[TokenKey] != []
  {
    var t := GetToken(store);
    t.Some? && t.value != []
  }

  // ---------------------------------------------------------------------------
  // The writers
  // ---------------------------------------------------------------------------

  /** `persistSession(token, user)`: both keys are written, nothing else. */
  method PersistSession(store: Storage, codec: UserCodec, token: string, user: User)
    modifies store
    ensures store.items == old(store.items)[TokenKey := token][UserKey := codec.stringify(user)]
  {
    store.SetItem(TokenKey, token);
    store.SetItem(UserKey, codec.stringify(user));
  }

  /** `persistUser(user)`: only the user entry is written. */
  method PersistUser(store: Storage, codec: UserCodec, user: User)
    modifies store
    ensures store.items == old(store.items)[UserKey := codec.stringify(user)]
  {
    store.SetItem(UserKey, codec.stringify(user));
  }

  /** `clearSession()`: both keys are removed, nothing else. */
  method ClearSession(store: Storage)
    modifies store
    ensures store.items == old(store.items) - {TokenKey, UserKey}
  {
    store.RemoveItem(TokenKey);
    store.RemoveItem(UserKey);
  }

  /** `login(payload)` given how the POST settles: the session is stored only on success; the reply is passed on. */
  method Login(store: Storage, codec: UserCodec, reply: Reply<AuthResponse>) returns (result: Reply<AuthResponse>)
    modifies store
    ensures result == reply
    ensures reply.Ok? ==>
              store.items == old(store.items)[TokenKey := reply.value.token][UserKey := codec.stringify(reply.value.user)]
    ensures reply.Err? ==> store.items == old(store.items)
  {
    result := reply;
    if reply.Ok? {
      PersistSession(store, codec, reply.value.token, reply.value.user);
    }
  }

  /** `register(payload)`: the same storage effect as login. */
  method Register(store: Storage, codec: UserCodec, reply: Reply<AuthResponse>) returns (result: Reply<AuthResponse>)
    modifies store
    ensures result == reply
    ensures reply.Ok? ==>
              store.items == old(store.items)[TokenKey := reply.value.token][UserKey := codec.stringify(reply.value.user)]
    ensures reply.Err? ==> store.items == old(store.items)
  {
    result := reply;
    if reply.Ok? {
      PersistSession(store, codec, reply.value.token, reply.value.user);
    }
  }

  /** `me()`: a successful reply refreshes the cached user; the token is never touched. */
  method Me(store: Storage, codec: UserCodec, reply: Reply<User>) returns (result: Reply<User>)
    modifies store
    ensures result == reply
    ensures reply.Ok? ==> store.items == old(store.items)[UserKey := codec.stringify(reply.value)]
    ensures reply.Err? ==> store.items == old(store.items)
  {
    result := reply;
    if reply.Ok? {
      PersistUser(store, codec, reply.value);
    }
  }

  /**
   * `logout()`: the session is cleared whether or not the POST succeeds;
   * `ok` is false when the failure propagates to the caller.
   */
  method Logout(store: Storage, reply: Reply<()>) returns (ok: bool)
    modifies store
    ensures ok == reply.Ok?
    ensures store.items == old(store.items) - {TokenKey, UserKey}
  {
    ok := reply.Ok?;
    ClearSession(store);
  }

  // ---------------------------------------------------------------------------
  // Properties of the stored map
  // ---------------------------------------------------------------------------

  /** A persisted session reads back: the token, the user, and authentication iff the token is non-empty. */
  lemma SessionReadsBack(items: map<string, string>, codec: UserCodec, token: string, user: User)
    requires RoundTrips(codec, user)
    ensures var m := items[TokenKey := token][UserKey := codec.stringify(user)];
      && TokenIn(m) == Some(token)
      && UserIn(m, codec) == Some(user)
      && (HasToken(m) <==> token != [])
      && (forall k :: k != TokenKey && k != UserKey ==> (k in m <==> k in items) && (k in m ==> m[k] == items[k]))
  {
  }

  /** Persisting the user alone keeps the token, and the user reads back. */
  lemma PersistUserKeepsToken(items: map<string, string>, codec: UserCodec, user: User)
    requires RoundTrips(codec, user)
    ensures var m := items[UserKey := codec.stringify(user)];
      && TokenIn(m) == TokenIn(items)
      && (HasToken(m) <==> HasToken(items))
      && UserIn(m, codec) == Some(user)
  {
  }

  /** After clearing, neither a token nor a user is found, and every other key is as it was. */
  lemma ClearedIsSignedOut(items: map<string, string>, codec: UserCodec)
    ensures var m := items - {TokenKey, UserKey};
      && TokenIn(m).None?
      && !HasToken(m)
      && UserIn(m, codec).None?
      && (forall k :: k != TokenKey && k != UserKey ==> (k in m <==> k in items) && (k in m ==> m[k] == items[k]))
  {
  }
}
