/**
  The per-request `headers` callback of the RPC link in lib/orpc.ts: it reads
  the session entry straight out of localStorage and attaches the access
  token as a bearer credential. Unlike the session store's `getState`, it
  catches a parse failure and sends no header instead.
 */
module OrpcLink {
  import opened JsValues
  import opened AuthStore

  /** The key the callback reads, spelled out in lib/orpc.ts rather than imported. */
  const STORAGE_KEY: string := "auth_state"

  const AUTHORIZATION: string := "Authorization"

  /** The header value; the token is everything after the fixed "Bearer " prefix. */
  function Bearer(token: string): (value: string)
    ensures |value| == |token| + 7
    ensures value[..7] == "Bearer " && value[7..] == token
  {
    "Bearer " + token
  }

  /**
    The header map for one request: empty on the server, when nothing (or the
    empty string) is stored, when the entry does not parse, and when the
    stored access token is `null` or empty; otherwise the single header
    `Authorization: Bearer <accessToken>`. Being a function of `storage`, it
    reads localStorage and never writes it.
   */
  function AuthHeaders(hasWindow: bool, storage: map<string, StoredEntry>): (h: map<string, string>)
    ensures h != map[] <==> hasWindow && STORAGE_KEY in storage
                             && storage[STORAGE_KEY].Valid? && Truthy(storage[STORAGE_KEY].state.accessToken)
    ensures h != map[] ==> h == map[AUTHORIZATION := Bearer(storage[STORAGE_KEY].state.accessToken.value)]
    // a header is sent exactly when the session store would report the user as authenticated
    ensures ReadState(hasWindow, storage).Ok? ==> (h != map[] <==> Truthy(ReadState(hasWindow, storage).value.accessToken))
    // where getState throws on a corrupt entry, the callback sends no header
    ensures ReadState(hasWindow, storage).Err? ==> h == map[]
  {
    if !hasWindow then map[]
    else if STORAGE_KEY in storage then
      match storage[STORAGE_KEY]
      case EmptyString => map[]
      case Corrupt => map[]
      case Valid(s) =>
        if Truthy(s.accessToken) then
          var h := map[AUTHORIZATION := Bearer(s.accessToken.value)];
          assert AUTHORIZATION in h;
          h
        else map[]
    else map[]
  }

  /**
    After `setState` writes an access token in the browser, every request
    carries exactly that token; after `clearState`, none carries a header.
   */
  lemma HeadersFollowStore(v: StoreValue, m: Mutation)
    requires Apply(true, v, m).outcome.Ok?
    ensures var after := Apply(true, v, m).after;
      var written := after.events[|after.events| - 1];
      AuthHeaders(true, after.storage)
        == if Truthy(written.accessToken) then map[AUTHORIZATION := Bearer(written.accessToken.value)] else map[]
  {
  }
}
