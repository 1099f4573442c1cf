/**
  A browser session end to end, from the contracts alone: log in against a
  provider that knows one user, let both hooks hear the `auth-change`
  event, build the request headers, then fail a refresh and see the session
  cleared everywhere.
 */
module SessionFlow {
  import opened JsValues
  import opened AuthStore
  import opened UseAuth
  import opened OrpcLink

  method LoginRefreshScenario()
  {
    var store := new Store(true, map[]);
    var userHook := new UserHook();
    var authHook := new AuthHook();
    var mounted := authHook.Mount(store);
    assert mounted.Ok? && !authHook.isAuthenticated && authHook.isReady;

    var emily := LoginData(1, "emilys", "emily@x.com", "Emily", "J", "female", "img", "tok1", "ref1");
    var login := (c: Credentials) =>
      if c == Credentials("emilys", "emilyspass") then Success(emily) else Fail("Invalid credentials");

    var denied, _ := Login(store, Credentials("emilys", "wrong"), login);
    assert denied.Err? && store.events == [];

    var r, invalidated := Login(store, Credentials("emilys", "emilyspass"), login);
    assert r == Ok(emily) && invalidated;
    assert ReadState(true, store.storage) == Ok(AuthState(Some("tok1"), Some("ref1"), Some(User(1, "emilys", "emily@x.com", "Emily", "J"))));
    assert |store.events| == 1;

    DeliverLatest(store, userHook, authHook);
    assert userHook.token == Some("tok1") && authHook.isAuthenticated;
    assert store.storage[STORAGE_KEY].state.accessToken == Some("tok1");
    assert Bearer("tok1") == "Bearer tok1";
    assert AuthHeaders(true, store.storage) == map["Authorization" := "Bearer tok1"];

    var refreshed, sent, _ := Refresh(store, (t: string) => Fail("Failed to refresh token"));
    assert sent == Some("ref1") && refreshed.Err?;
    assert ReadState(true, store.storage) == Ok(NullState);

    DeliverLatest(store, userHook, authHook);
    assert userHook.token == None && !authHook.isAuthenticated;
    assert AuthHeaders(true, store.storage) == map[];

    var again, sentAgain, _ := Refresh(store, (t: string) => Fail("Failed to refresh token"));
    assert again == Err(NoRefreshToken) && sentAgain == None;
  }
}
