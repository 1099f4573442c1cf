/**
  The session controller and read-side hooks of hooks/use-auth.ts.

  The three mutations (`useLogin`, `useLogout`, `useRefreshToken`) are
  methods that run the mutation function and then its `onSuccess` or
  `onError` callback against a shared `Store`, the way the query library
  runs them one after the other: an error thrown by the mutation function or
  by `onSuccess` is passed to `onError`. The identity provider behind the RPC
  client is a function parameter (`login`, `refresh`, `getMe`), so every
  provider request the code makes is visible in the contracts.

  `UserHook` and `AuthHook` hold the React state of `useUser` and `useAuth`,
  updated on mount and by their `auth-change` listeners.

  The mutation functions run only from click and submit handlers, and the
  effects only after mounting, so all of them run in the browser: hence
  `requires store.hasWindow`.
 */
module UseAuth {
  import opened JsValues
  import opened AuthStore

  datatype Credentials = Credentials(username: string, password: string)

  /** The body `client.login` resolves with. */
  datatype LoginData = LoginData(
    id: int, username: string, email: string, firstName: string, lastName: string,
    gender: string, image: string, accessToken: string, refreshToken: string)

  /** The body `client.refreshToken` resolves with. */
  datatype TokenPair = TokenPair(accessToken: string, refreshToken: string)

  /** A provider call through the RPC client: it resolves with data or rejects. */
  datatype ProviderResult<T> = Success(data: T) | Fail(message: string)

  /** What a mutation rejects with. */
  datatype MutationError =
    | StoreFailed(cause: StoreError)   // thrown by the session store
    | NoRefreshToken                   // `new Error("No refresh token")`
    | ProviderFailed(message: string)  // the RPC call rejected

  /** The five profile fields `useLogin`'s `onSuccess` copies out of the login body. */
  function UserOf(data: LoginData): (u: User)
    ensures u.id == data.id && u.username == data.username && u.email == data.email
    ensures u.firstName == data.firstName && u.lastName == data.lastName
  {
    User(data.id, data.username, data.email, data.firstName, data.lastName)
  }

  /** The argument of `setState` in `useLogin`'s `onSuccess`. */
  function LoginPatch(data: LoginData): (p: Patch)
    // every key is present, so whatever was stored before is replaced entirely
    ensures forall current :: Merge(current, p) == AuthState(Some(data.accessToken), Some(data.refreshToken), Some(UserOf(data)))
  {
    Patch(Some(Some(data.accessToken)), Some(Some(data.refreshToken)), Some(Some(UserOf(data))))
  }

  /** The argument of `setState` in `useRefreshToken`'s `onSuccess`: no `user` key. */
  function RefreshPatch(pair: TokenPair): (p: Patch)
    // both tokens are replaced and the stored user is kept, whatever it is
    ensures forall current :: Merge(current, p) == current.(accessToken := Some(pair.accessToken), refreshToken := Some(pair.refreshToken))
  {
    Patch(Some(Some(pair.accessToken)), Some(Some(pair.refreshToken)), None)
  }

  /** The stored user is the login body with every field but the five profile fields dropped. */
  lemma LoginStoresProfileOnly(d1: LoginData, d2: LoginData, v: StoreValue)
    requires d1.(gender := d2.gender, image := d2.image) == d2
    requires Apply(true, v, Set(LoginPatch(d1))).outcome.Ok?
    ensures ReadState(true, Apply(true, v, Set(LoginPatch(d1))).after.storage)
         == ReadState(true, Apply(true, v, Set(LoginPatch(d2))).after.storage)
         == Ok(AuthState(Some(d1.accessToken), Some(d1.refreshToken), Some(User(d1.id, d1.username, d1.email, d1.firstName, d1.lastName))))
  {
  }

  /**
    `useLogin`: `client.login(credentials)`, then on success `setState` with
    the tokens and profile and invalidate the "user" queries. There is no
    `onError`, so a rejected login, or a `setState` that throws, leaves the
    store as it was.
   */
  method Login(store: Store, credentials: Credentials, login: Credentials -> ProviderResult<LoginData>)
    returns (r: Result<LoginData, MutationError>, invalidated: bool)
    requires store.hasWindow
    modifies store
    ensures login(credentials).Fail? ==> r == Err(ProviderFailed(login(credentials).message))
    // the SyntaxError that setState raises on a corrupt entry is what the mutation rejects with
    ensures login(credentials).Success? && EntryOf(old(store.storage)) == Some(Corrupt) ==> r == Err(StoreFailed(SyntaxError))
    ensures r.Err? <==> login(credentials).Fail? || EntryOf(old(store.storage)) == Some(Corrupt)
    ensures r.Err? ==> store.Value() == old(store.Value())
    ensures r.Ok? ==> (r == Ok(login(credentials).data)
                       && store.Value() == Apply(true, old(store.Value()), Set(LoginPatch(r.value))).after)
    ensures r.Ok? ==> (ReadState(true, store.storage)
                       == Ok(AuthState(Some(r.value.accessToken), Some(r.value.refreshToken), Some(UserOf(r.value)))))
    ensures r.Ok? ==> store.events == old(store.events) + [AuthState(Some(r.value.accessToken), Some(r.value.refreshToken), Some(UserOf(r.value)))]
    ensures invalidated <==> r.Ok?
  {
    invalidated := false;
    var result := login(credentials);
    if result.Fail? {
      return Err(ProviderFailed(result.message)), false;
    }
    // onSuccess
    var data := result.data;
    var written := store.SetState(LoginPatch(data));
    if written.Err? {
      return Err(StoreFailed(written.error)), false;
    }
    invalidated := true;
    r := Ok(data);
  }

  /** `useLogout`: `clearState()` with no provider call, then invalidate the "user" queries. */
  method Logout(store: Store) returns (r: Result<(), MutationError>, invalidated: bool)
    requires store.hasWindow
    modifies store
    ensures r.Ok? && invalidated
    ensures store.Value() == Apply(true, old(store.Value()), Clear).after
    ensures EntryOf(store.storage).None? && ReadState(true, store.storage) == Ok(NullState)
    ensures store.events == old(store.events) + [NullState]
  {
    var cleared := store.ClearState();
    assert cleared.Ok?;
    r, invalidated := Ok(()), true;
  }

  /**
    `useRefreshToken`: read the stored refresh token, throw "No refresh token"
    when it is falsy, otherwise send it to `client.refreshToken`; on success
    `setState` only the token pair, on any error `clearState()`. `sent` is
    the refresh token the provider received, `None` when no request was made.
   */
  method Refresh(store: Store, refresh: string -> ProviderResult<TokenPair>)
    returns (r: Result<TokenPair, MutationError>, sent: Option<string>, invalidated: bool)
    requires store.hasWindow
    modifies store
    ensures var before := ReadState(true, old(store.storage));
      sent == (if before.Ok? && Truthy(before.value.refreshToken) then before.value.refreshToken else None)
    ensures var before := ReadState(true, old(store.storage));
      before.Ok? && !Truthy(before.value.refreshToken) ==> r == Err(NoRefreshToken)
    // a corrupt entry rejects with getState's SyntaxError, before any request
    ensures ReadState(true, old(store.storage)).Err? ==> r == Err(StoreFailed(SyntaxError))
    // a provider rejection is passed on with its message
    ensures sent.Some? && refresh(sent.value).Fail? ==> r == Err(ProviderFailed(refresh(sent.value).message))
    ensures r.Ok? <==> sent.Some? && refresh(sent.value).Success?
    ensures r.Ok? ==> refresh(sent.value) == Success(r.value)
    ensures r.Ok? ==> store.Value() == Apply(true, old(store.Value()), Set(RefreshPatch(r.value))).after
    ensures r.Ok? ==> (ReadState(true, store.storage)
                       == Ok(AuthState(Some(r.value.accessToken), Some(r.value.refreshToken), ReadState(true, old(store.storage)).value.user)))
    ensures r.Err? ==> store.Value() == Apply(true, old(store.Value()), Clear).after
    ensures r.Err? ==> ReadState(true, store.storage) == Ok(NullState)
    ensures |store.events| == |old(store.events)| + 1
    ensures invalidated <==> r.Ok?
  {
    sent, invalidated := None, false;
    // mutationFn
    var state := store.GetState();
    if state.Err? {
      r := Err(StoreFailed(state.error));
    } else if !Truthy(state.value.refreshToken) {
      r := Err(NoRefreshToken);
    } else {
      sent := state.value.refreshToken;
      var result := refresh(sent.value);
      r := if result.Success? then Ok(result.data) else Err(ProviderFailed(result.message));
    }
    if r.Ok? {
      // onSuccess; the entry was just read, so setState cannot throw here
      var written := store.SetState(RefreshPatch(r.value));
      assert written.Ok?;
      invalidated := true;
    } else {
      // onError
      var cleared := store.ClearState();
      assert cleared.Ok?;
    }
  }

  /** Whether `useUser`'s query runs: `enabled: !!token`. */
  function UserQueryEnabled(token: Option<string>): (enabled: bool)
    // a null or empty token disables the query; any other token enables it
    ensures enabled <==> token.Some? && |token.value| > 0
  {
    Truthy(token)
  }

  /**
    `useUser`'s query function: `null` without a request when the token is
    falsy, otherwise the result of `client.getMe({ token })`. `sent` is the
    token the provider received.
   */
  method FetchUser(token: Option<string>, getMe: string -> ProviderResult<User>)
    returns (data: Result<Option<User>, string>, sent: Option<string>)
    ensures sent.Some? <==> UserQueryEnabled(token)
    ensures !UserQueryEnabled(token) ==> data == Ok(None)
    ensures sent.Some? ==> (sent == token
                            && data == (if getMe(sent.value).Success? then Ok(Some(getMe(sent.value).data)) else Err(getMe(sent.value).message)))
  {
    if !Truthy(token) {
      return Ok(None), None;
    }
    sent := token;
    var result := getMe(token.value);
    data := if result.Success? then Ok(Some(result.data)) else Err(result.message);
  }

  /** The React state of `useUser`: the token its query is keyed by, `["user", token]`. */
  class UserHook {
    var token: Option<string>

    /** `useState<string | null>(null)`. */
    constructor ()
      ensures token == None
    {
      token := None;
    }

    /** The mount effect: `setToken(authStore.getState().accessToken)`. */
    method Mount(store: Store) returns (r: Result<(), StoreError>)
      modifies this
      ensures r.Ok? <==> ReadState(store.hasWindow, store.storage).Ok?
      ensures r.Ok? ==> token == ReadState(store.hasWindow, store.storage).value.accessToken
      ensures r.Err? ==> token == old(token)
    {
      var state := store.GetState();
      if state.Err? {
        return Err(state.error);
      }
      token := state.value.accessToken;
      r := Ok(());
    }

    /** The `auth-change` listener: the token is taken from the event payload. */
    method OnAuthChange(detail: AuthState)
      modifies this
      ensures token == detail.accessToken
    {
      token := detail.accessToken;
    }
  }

  /** The React state of `useAuth`. */
  class AuthHook {
    var isAuthenticated: bool
    var isReady: bool

    constructor ()
      ensures !isAuthenticated && !isReady
    {
      isAuthenticated, isReady := false, false;
    }

    /** The mount effect: `setIsAuthenticated(authStore.isAuthenticated())`, then `setIsReady(true)`. */
    method Mount(store: Store) returns (r: Result<(), StoreError>)
      modifies this
      ensures r.Ok? <==> ReadState(store.hasWindow, store.storage).Ok?
      ensures r.Ok? ==> isReady && (isAuthenticated <==> Truthy(ReadState(store.hasWindow, store.storage).value.accessToken))
      ensures r.Err? ==> isAuthenticated == old(isAuthenticated) && isReady == old(isReady)
    {
      var authenticated := store.IsAuthenticated();
      if authenticated.Err? {
        return Err(authenticated.error);
      }
      isAuthenticated := authenticated.value;
      isReady := true;
      r := Ok(());
    }

    /** The `auth-change` listener: ignores the payload and asks the store again. */
    method OnAuthChange(store: Store) returns (r: Result<(), StoreError>)
      modifies this
      ensures r.Ok? <==> ReadState(store.hasWindow, store.storage).Ok?
      ensures r.Ok? ==> (isAuthenticated <==> Truthy(ReadState(store.hasWindow, store.storage).value.accessToken))
      ensures isReady == old(isReady)
      ensures r.Err? ==> isAuthenticated == old(isAuthenticated)
    {
      var authenticated := store.IsAuthenticated();
      if authenticated.Err? {
        return Err(authenticated.error);
      }
      isAuthenticated := authenticated.value;
      r := Ok(());
    }

    /** `isLoading || !isReady`. */
    function IsLoading(queryLoading: bool): (loading: bool)
      reads this
      ensures !isReady ==> loading
      ensures isReady ==> (loading <==> queryLoading)
    {
      queryLoading || !isReady
    }
  }

  /**
    Dispatching the latest `auth-change` event to the two listeners. When
    the payload is what the store holds, which every mutation guarantees,
    both hooks end up agreeing with the store and with each other.
   */
  method DeliverLatest(store: Store, userHook: UserHook, authHook: AuthHook)
    requires |store.events| > 0
    requires ReadState(store.hasWindow, store.storage) == Ok(store.events[|store.events| - 1])
    modifies userHook, authHook
    ensures userHook.token == store.events[|store.events| - 1].accessToken
    ensures authHook.isAuthenticated <==> Truthy(userHook.token)
    ensures authHook.isAuthenticated <==> UserQueryEnabled(userHook.token)
    ensures authHook.isReady == old(authHook.isReady)
  {
    userHook.OnAuthChange(store.events[|store.events| - 1]);
    var r := authHook.OnAuthChange(store);
    assert r.Ok?;
  }
}
