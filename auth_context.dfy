/**
 * The auth provider: the React state `user`, `isAuthenticated` and
 * `isLoading`, the token kept in storage, and the transitions `setToken`,
 * `logout`, `bootstrap`, `login` and `register`. Each backend call is given
 * as the reply it settles with.
 */
module AuthContext {
  import opened Wrappers
  import opened Types
  import opened Text
  import opened AuthService

  class AuthProvider {
    var user: Option<User>
    var isAuthenticated: bool
    var isLoading: bool
    const store: Storage
    const codec: UserCodec

    /** The provider's consistency: it claims authentication exactly when it holds a user. */
    predicate Valid()
      reads this
    {
      isAuthenticated <==> user.Some?
    }

    /** The initial state: no user, not authenticated, loading until bootstrap settles. */
    constructor (store: Storage, codec: UserCodec)
      ensures this.store == store && this.codec == codec
      ensures user.None? && !isAuthenticated && isLoading
      ensures Valid()
    {
      this.store := store;
      this.codec := codec;
      user, isAuthenticated, isLoading := None, false, true;
    }

    /** `setToken(token)`: a non-empty token is stored, `null` or `""` removes the entry. */
    method SetToken(token: Option<string>)
      modifies store
      ensures token.Some? && token.value != [] ==> store.items == old(store.items)[TokenKey := token.value]
      ensures token.None? || token.value == [] ==> store.items == old(store.items) - {TokenKey}
    {
      if token.Some? && token.value != [] {
        store.SetItem(TokenKey, token.value);
      } else {
        store.RemoveItem(TokenKey);
      }
    }

    /**
     * `logout()`: the service clears the session, then the token is removed
     * again and the user dropped, also when the POST fails (`ok` false: the
     * failure propagates).
     */
    method Logout(reply: Reply<()>) returns (ok: bool)
      modifies this`user, this`isAuthenticated, store
      ensures ok == reply.Ok?
      ensures user.None? && !isAuthenticated && Valid()
      ensures store.items == old(store.items) - {TokenKey, UserKey}
      ensures !HasToken(store.items) && UserIn(store.items, codec).None?
    {
      ok := AuthService.Logout(store, reply);
      SetToken(None);
      user := None;
      isAuthenticated := false;
      ClearedIsSignedOut(old(store.items), codec);
    }

    /**
     * `bootstrap()`, given how `me()` would settle; `meCalled` says whether it
     * was called. A stored token with a cached user signs in without the
     * call; a token alone asks `me()` and signs out (dropping the token) when
     * it fails; no token means signed out.
     */
    method Bootstrap(meReply: Reply<User>) returns (meCalled: bool)
      modifies this`user, this`isAuthenticated, this`isLoading, store
      ensures !isLoading && Valid()
      ensures meCalled <==> HasToken(old(store.items)) && UserIn(old(store.items), codec).None?
      ensures HasToken(old(store.items)) && UserIn(old(store.items), codec).Some? ==>
                user == UserIn(old(store.items), codec) && isAuthenticated && store.items == old(store.items)
      ensures meCalled && meReply.Ok? ==>
                user == Some(meReply.value) && isAuthenticated
                && store.items == old(store.items)[UserKey := codec.stringify(meReply.value)]
      ensures meCalled && meReply.Err? ==>
                user.None? && !isAuthenticated && store.items == old(store.items) - {TokenKey}
      ensures !HasToken(old(store.items)) ==> user.None? && !isAuthenticated && store.items == old(store.items)
    {
      isLoading := true;
      meCalled := false;
      var token := GetToken(store);
      var cachedUser := GetStoredUser(store, codec);
      if token.Some? && token.value != [] && cachedUser.Some? {
        user := cachedUser;
        isAuthenticated := true;
      } else if token.Some? && token.value != [] {
        meCalled := true;
        var me := Me(store, codec, meReply);
        match me {
          case Ok(u) =>
            user := Some(u);
            isAuthenticated := true;
          case Err(_) =>
            user := None;
            isAuthenticated := false;
            SetToken(None);
        }
      } else {
        var ok := IsAuthenticated(store);
        isAuthenticated := ok;
        if !ok {
          user := None;
        }
      }
      isLoading := false;
    }

    /**
     * `login(email, password)`, given how the POST would settle. Blank
     * trimmed credentials fail before any call (`sent` is `None`); otherwise
     * the trimmed credentials are sent, and on success the session is stored,
     * the token realigned by `setToken` and the user signed in.
     */
    method Login(email: string, password: string, reply: Reply<AuthResponse>)
      returns (sent: Option<LoginPayload>, ok: bool)
      requires Valid()
      modifies this`user, this`isAuthenticated, store
      ensures Valid()
      ensures sent.None? <==> Trim(email) == [] || Trim(password) == []
      ensures sent.Some? ==> sent.value == LoginPayload(Trim(email), Trim(password))
      ensures ok <==> sent.Some? && reply.Ok?
      ensures !ok ==> user == old(user) && isAuthenticated == old(isAuthenticated) && store.items == old(store.items)
      ensures ok ==> user == Some(reply.value.user) && isAuthenticated
      ensures ok ==> store.items == SignedIn(old(store.items), codec, reply.value)
    {
      sent, ok := None, false;
      var e := Trim(email);
      var p := Trim(password);
      if e == [] || p == [] {
        return;
      }
      sent := Some(LoginPayload(e, p));
      var result := AuthService.Login(store, codec, reply);
      if result.Err? {
        return;
      }
      SetToken(Some(result.value.token));
      user := Some(result.value.user);
      isAuthenticated := true;
      ok := true;
    }

    /** `register(payload)`, given how the POST would settle: on success, the same end state as a login. */
    method Register(payload: RegisterPayload, reply: Reply<AuthResponse>) returns (ok: bool)
      requires Valid()
      modifies this`user, this`isAuthenticated, store
      ensures Valid()
      ensures ok == reply.Ok?
      ensures !ok ==> user == old(user) && isAuthenticated == old(isAuthenticated) && store.items == old(store.items)
      ensures ok ==> user == Some(reply.value.user) && isAuthenticated
      ensures ok ==> store.items == SignedIn(old(store.items), codec, reply.value)
    {
      ok := false;
      var result := AuthService.Register(store, codec, reply);
      if result.Err? {
        return;
      }
      SetToken(Some(result.value.token));
      user := Some(result.value.user);
      isAuthenticated := true;
      ok := true;
    }
  }

  /**
   * The stored map after a successful login or register: the service persisted
   * token and user, then `setToken` rewrote the token, or removed it when empty.
   */
  function SignedIn(items: map<string, string>, codec: UserCodec, r: AuthResponse): map<string, string> {
    var persisted := items[TokenKey := r.token][UserKey := codec.stringify(r.user)];
    if r.token != [] then persisted else persisted - {TokenKey}
  }

  /**
   * After a successful login or register the stored session reads back as the
   * returned user, and a token is found exactly when the backend returned a
   * non-empty one.
   */
  lemma SignedInReadsBack(items: map<string, string>, codec: UserCodec, r: AuthResponse)
    requires RoundTrips(codec, r.user)
    ensures UserIn(SignedIn(items, codec, r), codec) == Some(r.user)
    ensures HasToken(SignedIn(items, codec, r)) <==> r.token != []
    ensures r.token != [] ==> TokenIn(SignedIn(items, codec, r)) == Some(r.token)
  {
    SessionReadsBack(items, codec, r.token, r.user);
  }
}
