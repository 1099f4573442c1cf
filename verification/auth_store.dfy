/**
  The client-side session store of lib/auth-store.ts: one `AuthState` record
  persisted as JSON under the localStorage key "auth_state", read back by
  `getState`, merged and persisted by `setState`, removed by `clearState`,
  and broadcast to listeners as an `auth-change` window event after each
  mutation.

  The store's behaviour is specified by `ReadState` (what `getState` returns
  or throws) and `Apply` (what `setState` / `clearState` do to localStorage
  and to the list of dispatched events); the class `Store` implements those
  operations step by step and is proved against them, and `Run` lifts `Apply`
  to any sequence of mutations for the lemmas at the end.
 */
module AuthStore {
  import opened JsValues

  /** The one localStorage key the store reads and writes. */
  const AUTH_STORAGE_KEY: string := "auth_state"

  datatype User = User(id: int, username: string, email: string, firstName: string, lastName: string)

  /** The persisted session; every field may be `null`. */
  datatype AuthState = AuthState(accessToken: Option<string>, refreshToken: Option<string>, user: Option<User>)

  /** `{ accessToken: null, refreshToken: null, user: null }`. */
  const NullState: AuthState := AuthState(None, None, None)

  /**
    A `Partial<AuthState>` argument of `setState`: for each key, `None` when
    the argument object does not have that key, `Some(v)` when it sets it
    to `v` (which may itself be `null`).
   */
  datatype Patch = Patch(accessToken: Option<Option<string>>, refreshToken: Option<Option<string>>, user: Option<Option<User>>)

  /** The string stored under a localStorage key, as `getState` classifies it. */
  datatype StoredEntry =
    | EmptyString              // "" is falsy, so `if (stored)` skips it
    | Valid(state: AuthState)  // the JSON text of a session record
    | Corrupt                  // text that `JSON.parse` rejects

  /** The errors the store's operations throw. */
  datatype StoreError =
    | SyntaxError     // `JSON.parse` of a corrupt entry
    | ReferenceError  // `localStorage` touched where there is no `window`

  /** The value of one key after the object spread: the given value if present. */
  function Override<T>(current: T, given: Option<T>): T
  {
    if given.Some? then given.value else current
  }

  /** `{ ...current, ...patch }`. */
  function Merge(current: AuthState, patch: Patch): (r: AuthState)
    ensures patch.accessToken.None? ==> r.accessToken == current.accessToken
    ensures patch.refreshToken.None? ==> r.refreshToken == current.refreshToken
    ensures patch.user.None? ==> r.user == current.user
    ensures patch.accessToken.Some? ==> r.accessToken == patch.accessToken.value
    ensures patch.refreshToken.Some? ==> r.refreshToken == patch.refreshToken.value
    ensures patch.user.Some? ==> r.user == patch.user.value
  {
    AuthState(
      Override(current.accessToken, patch.accessToken),
      Override(current.refreshToken, patch.refreshToken),
      Override(current.user, patch.user))
  }

  /** `localStorage.getItem(AUTH_STORAGE_KEY)`, `None` standing for `null`. */
  function EntryOf(storage: map<string, StoredEntry>): (e: Option<StoredEntry>)
    ensures e.Some? <==> AUTH_STORAGE_KEY in storage
    ensures e.Some? ==> e.value == storage[AUTH_STORAGE_KEY]
  {
    if AUTH_STORAGE_KEY in storage then Some(storage[AUTH_STORAGE_KEY]) else None
  }

  /**
    `getState()`: the all-null record on the server and when nothing (or the
    empty string) is stored, the parsed record otherwise; a corrupt entry
    makes `JSON.parse` throw, and nothing catches it.
   */
  function ReadState(hasWindow: bool, storage: map<string, StoredEntry>): (r: Result<AuthState, StoreError>)
    ensures r.Err? <==> hasWindow && EntryOf(storage) == Some(Corrupt)
    ensures r.Err? ==> r.error == SyntaxError
    ensures r.Ok? && r.value != NullState ==> hasWindow && EntryOf(storage) == Some(Valid(r.value))
    // in a browser, a parsable stored record is returned as it was stored
    ensures hasWindow && EntryOf(storage).Some? && EntryOf(storage).value.Valid? ==> r == Ok(EntryOf(storage).value.state)
    ensures !hasWindow || EntryOf(storage).None? ==> r == Ok(NullState)
  {
    if !hasWindow then Ok(NullState)
    else match EntryOf(storage)
      case None => Ok(NullState)
      case Some(EmptyString) => Ok(NullState)
      case Some(Valid(s)) => Ok(s)
      case Some(Corrupt) => Err(SyntaxError)
  }

  /** What the store's mutations act on: localStorage and the `auth-change` payloads dispatched so far. */
  datatype StoreValue = StoreValue(storage: map<string, StoredEntry>, events: seq<AuthState>)

  datatype Mutation = Set(patch: Patch) | Clear

  datatype Transition = Transition(outcome: Result<(), StoreError>, after: StoreValue)

  /**
    One call of `setState(patch)` or `clearState()`. `setState` reads the
    current state (which throws on a corrupt entry), merges, writes the entry
    and dispatches the merged record; `clearState` removes the entry and
    dispatches the all-null record. Without a window, `localStorage` does not
    exist and both throw before anything is written or dispatched.
   */
  function Apply(hasWindow: bool, v: StoreValue, m: Mutation): (t: Transition)
    // the call throws exactly on the server, or when setState finds a corrupt entry
    ensures t.outcome.Err? <==> !hasWindow || (m.Set? && EntryOf(v.storage) == Some(Corrupt))
    // a call that throws changes neither storage nor the event list
    ensures t.outcome.Err? ==> t.after == v
    // a call that returns dispatched exactly one event, after the earlier ones
    ensures t.outcome.Ok? ==> |t.after.events| == |v.events| + 1 && t.after.events[..|v.events|] == v.events
    // and that event carries exactly what getState now returns
    ensures t.outcome.Ok? ==> ReadState(hasWindow, t.after.storage) == Ok(t.after.events[|v.events|])
    // setState persists current ⊕ patch
    ensures t.outcome.Ok? && m.Set? ==> t.after.events[|v.events|] == Merge(ReadState(hasWindow, v.storage).value, m.patch)
    // clearState leaves no entry and broadcasts the all-null record
    ensures t.outcome.Ok? && m.Clear? ==> EntryOf(t.after.storage).None? && t.after.events[|v.events|] == NullState
    // no other localStorage key is touched
    ensures t.after.storage - {AUTH_STORAGE_KEY} == v.storage - {AUTH_STORAGE_KEY}
  {
    match m
    case Set(patch) =>
      (match ReadState(hasWindow, v.storage)
       case Err(e) => Transition(Err(e), v)
       case Ok(current) =>
         if !hasWindow then Transition(Err(ReferenceError), v)
         else
           var newState := Merge(current, patch);
           var storage' := v.storage[AUTH_STORAGE_KEY := Valid(newState)];
           assert storage' - {AUTH_STORAGE_KEY} == v.storage - {AUTH_STORAGE_KEY};
           Transition(Ok(()), StoreValue(storage', v.events + [newState])))
    case Clear =>
      if !hasWindow then Transition(Err(ReferenceError), v)
      else
        var storage' := v.storage - {AUTH_STORAGE_KEY};
        assert storage' - {AUTH_STORAGE_KEY} == v.storage - {AUTH_STORAGE_KEY};
        Transition(Ok(()), StoreValue(storage', v.events + [NullState]))
  }

  /** A caller making the calls `ms` one after the other; the first one that throws ends the sequence. */
  function Run(hasWindow: bool, v: StoreValue, ms: seq<Mutation>): Transition
    decreases |ms|
  {
    if ms == [] then Transition(Ok(()), v)
    else
      var first := Apply(hasWindow, v, ms[0]);
      if first.outcome.Err? then first else Run(hasWindow, first.after, ms[1..])
  }

  /** The session store object; `hasWindow` tells whether it runs in a browser. */
  class Store {
    const hasWindow: bool
    var storage: map<string, StoredEntry>
    var events: seq<AuthState>

    constructor (hasWindow: bool, storage: map<string, StoredEntry>)
      ensures this.hasWindow == hasWindow && this.storage == storage && events == []
    {
      this.hasWindow := hasWindow;
      this.storage := storage;
      events := [];
    }

    function Value(): StoreValue
      reads this
    {
      StoreValue(storage, events)
    }

    method GetState() returns (r: Result<AuthState, StoreError>)
      ensures r == ReadState(hasWindow, storage)
    {
      if !hasWindow {
        return Ok(NullState);
      }
      if AUTH_STORAGE_KEY !in storage {
        return Ok(NullState);
      }
      var stored := storage[AUTH_STORAGE_KEY];
      match stored {
        case EmptyString => r := Ok(NullState);
        case Valid(s) => r := Ok(s);
        case Corrupt => r := Err(SyntaxError);
      }
    }

    method SetState(patch: Patch) returns (r: Result<(), StoreError>)
      modifies this
      ensures Transition(r, Value()) == Apply(hasWindow, old(Value()), Set(patch))
    {
      var current := GetState();
      if current.Err? {
        return Err(current.error);
      }
      var newState := Merge(current.value, patch);
      if !hasWindow {
        // localStorage.setItem on the server
        return Err(ReferenceError);
      }
      storage := storage[AUTH_STORAGE_KEY := Valid(newState)];
      events := events + [newState];
      r := Ok(());
    }

    method ClearState() returns (r: Result<(), StoreError>)
      modifies this
      ensures Transition(r, Value()) == Apply(hasWindow, old(Value()), Clear)
    {
      if !hasWindow {
        // localStorage.removeItem on the server
        return Err(ReferenceError);
      }
      storage := storage - {AUTH_STORAGE_KEY};
      events := events + [NullState];
      r := Ok(());
    }

    /** `!!getState().accessToken`; throws whatever `getState` throws. */
    method IsAuthenticated() returns (r: Result<bool, StoreError>)
      ensures r.Err? <==> ReadState(hasWindow, storage).Err?
      ensures r.Ok? ==> (r.value <==> Truthy(ReadState(hasWindow, storage).value.accessToken))
    {
      var state := GetState();
      if state.Err? {
        return Err(state.error);
      }
      r := Ok(Truthy(state.value.accessToken));
    }
  }

  /** Each call that returns adds exactly one event, and earlier events stay as they were. */
  lemma {:induction false} RunOneEventPerCall(hasWindow: bool, v: StoreValue, ms: seq<Mutation>)
    requires Run(hasWindow, v, ms).outcome.Ok?
    ensures |Run(hasWindow, v, ms).after.events| == |v.events| + |ms|
    ensures Run(hasWindow, v, ms).after.events[..|v.events|] == v.events
    decreases |ms|
  {
    if ms != [] {
      var first := Apply(hasWindow, v, ms[0]);
      RunOneEventPerCall(hasWindow, first.after, ms[1..]);
      var after := Run(hasWindow, first.after, ms[1..]).after;
      assert after.events[..|v.events|] == after.events[..|first.after.events|][..|v.events|];
    }
  }

  /** After any nonempty sequence of calls that return, getState returns exactly the last event's payload. */
  lemma {:induction false} RunReadsLastWrite(hasWindow: bool, v: StoreValue, ms: seq<Mutation>)
    requires ms != [] && Run(hasWindow, v, ms).outcome.Ok?
    ensures var after := Run(hasWindow, v, ms).after;
      |after.events| > 0 && ReadState(hasWindow, after.storage) == Ok(after.events[|after.events| - 1])
    decreases |ms|
  {
    var first := Apply(hasWindow, v, ms[0]);
    if ms[1..] != [] {
      RunReadsLastWrite(hasWindow, first.after, ms[1..]);
    }
  }

  /** Once getState works in a browser, no sequence of setState / clearState calls ever throws. */
  lemma {:induction false} RunNeverThrowsOnceReadable(hasWindow: bool, v: StoreValue, ms: seq<Mutation>)
    requires hasWindow && ReadState(hasWindow, v.storage).Ok?
    ensures Run(hasWindow, v, ms).outcome.Ok?
    decreases |ms|
  {
    if ms != [] {
      var first := Apply(hasWindow, v, ms[0]);
      RunNeverThrowsOnceReadable(hasWindow, first.after, ms[1..]);
    }
  }

  /**
    In a browser a sequence of calls can throw only while the stored entry is
    corrupt, and a `clearState` first always repairs it.
   */
  lemma RunThrowsOnlyOnCorruptEntry(hasWindow: bool, v: StoreValue, ms: seq<Mutation>)
    ensures Run(hasWindow, v, ms).outcome.Err? ==> !hasWindow || EntryOf(v.storage) == Some(Corrupt)
    ensures hasWindow ==> Run(hasWindow, v, [Clear] + ms).outcome.Ok?
  {
    if hasWindow && ms != [] && EntryOf(v.storage) != Some(Corrupt) {
      RunNeverThrowsOnceReadable(hasWindow, v, ms);
    }
    if hasWindow {
      var cleared := Apply(hasWindow, v, Clear);
      RunNeverThrowsOnceReadable(hasWindow, cleared.after, ms);
      assert ([Clear] + ms)[1..] == ms;
    }
  }

  /** No sequence of store calls touches any localStorage key but "auth_state". */
  lemma {:induction false} RunKeepsOtherKeys(hasWindow: bool, v: StoreValue, ms: seq<Mutation>)
    ensures Run(hasWindow, v, ms).after.storage - {AUTH_STORAGE_KEY} == v.storage - {AUTH_STORAGE_KEY}
    decreases |ms|
  {
    if ms != [] {
      var first := Apply(hasWindow, v, ms[0]);
      if first.outcome.Ok? {
        RunKeepsOtherKeys(hasWindow, first.after, ms[1..]);
      }
    }
  }

  /** Writing the same patch twice leaves the same state as writing it once. */
  lemma MergeIdempotent(current: AuthState, patch: Patch)
    ensures Merge(Merge(current, patch), patch) == Merge(current, patch)
  {
  }

  /** A patch with no keys leaves the state as it was. */
  lemma MergeEmptyPatch(current: AuthState)
    ensures Merge(current, Patch(None, None, None)) == current
  {
  }
}
