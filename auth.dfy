/**
 * The session context (src/context/AuthContext.tsx): the in-memory `token` and
 * `loading` fields, each operation paired with a write to the durable store.
 *
 * `AuthState` is the whole observable state — memory and storage together — and
 * the `After…` functions are the operations as transitions on it. The class
 * `Session` holds the memory part in fields next to the store object, and its
 * methods are proved to perform exactly those transitions.
 */
module Auth {
  import opened Wrappers
  import opened Js
  import opened Storage
  import opened Client

  /** Memory (`token`, `loading`) and storage (`saved`) together. */
  datatype AuthState = AuthState(token: JsValue, loading: bool, saved: Option<string>)

  /** What `getItem` hands to `setToken`: the stored string, or `null`. */
  function TokenValue(saved: Option<string>): JsValue {
    if saved.Some? then Str(saved.value) else Null
  }

  /** Memory agrees with storage: a truthy token is stored as its string, a falsy one is not stored. */
  predicate Synced(s: AuthState) {
    s.saved == if Truthy(s.token) then Some(JsString(s.token)) else None
  }

  /** The restore effect; `readFails` is the storage read rejecting. */
  function AfterRestore(s: AuthState, readFails: bool): AuthState {
    if readFails then s.(loading := false) else s.(token := TokenValue(s.saved), loading := false)
  }

  /** `persistToken(t)`: memory takes `t`; storage is written when `t` is truthy and cleared otherwise. */
  function Persist(s: AuthState, t: JsValue): AuthState {
    AuthState(t, s.loading, if Truthy(t) then Some(JsString(t)) else None)
  }

  /** `login`: the client call, then the token it returned is persisted. */
  function AfterLogin(s: AuthState, reply: Reply): AuthState {
    var s1 := s.(saved := StoredAfterLogin(s.saved, reply));
    match LoginResult(reply)
    case Ok(t) => Persist(s1, t)
    case Err(_) => s1
  }

  function LoginOutcome(reply: Reply): Result<(), ClientError> {
    match LoginResult(reply)
    case Ok(_) => Ok(())
    case Err(e) => Err(e)
  }

  /** A register body the context accepts as a token: a non-empty string. */
  predicate IsTokenString(data: JsValue) {
    data.Str? && |data.s| > 0
  }

  /**
   * `register`: the client call (which may already store a token), then either
   * its string result is persisted, or a login follows and its token is.
   */
  function AfterRegister(s: AuthState, registerReply: Reply, loginReply: Reply): AuthState {
    var s1 := s.(saved := StoredAfterRegister(s.saved, registerReply));
    match Settle(registerReply)
    case Err(_) => s1
    case Ok(data) => if IsTokenString(data) then Persist(s1, data) else AfterLogin(s1, loginReply)
  }

  function RegisterOutcome(registerReply: Reply, loginReply: Reply): Result<(), ClientError> {
    match Settle(registerReply)
    case Err(e) => Err(Http(e))
    case Ok(data) => if IsTokenString(data) then Ok(()) else LoginOutcome(loginReply)
  }

  /** `logout`: whatever the client call does, `persistToken(null)` runs in the `finally`. */
  function AfterLogout(s: AuthState): AuthState {
    Persist(s.(saved := None), Null)
  }

  /** Any other API call: the response hook may clear storage; memory is untouched. */
  function AfterCall(s: AuthState, reply: Reply): AuthState {
    s.(saved := if ClearsToken(reply) then None else s.saved)
  }

  // ---------------------------------------------------------------- properties

  /** After restoring, `loading` is false, and the token is the stored value unless the read failed. */
  lemma RestoreSpec(s: AuthState, readFails: bool)
    ensures !AfterRestore(s, readFails).loading
    ensures AfterRestore(s, readFails).saved == s.saved
    ensures !readFails && s.saved.Some? ==> AfterRestore(s, readFails).token == Str(s.saved.value)
    ensures !readFails && s.saved.None? ==> AfterRestore(s, readFails).token == Null
    ensures readFails ==> AfterRestore(s, readFails).token == s.token
  {
  }

  /** Restoring a non-empty stored token, or an empty store, leaves memory and storage in agreement. */
  lemma RestoreSyncs(s: AuthState)
    requires s.saved.None? || s.saved.value != ""
    ensures Synced(AfterRestore(s, false))
  {
  }

  /** Persisting always leaves memory and storage in agreement, and `loading` alone. */
  lemma PersistSyncs(s: AuthState, t: JsValue)
    ensures Persist(s, t).token == t && Persist(s, t).loading == s.loading
    ensures Synced(Persist(s, t))
  {
  }

  /**
   * `persistToken("")` is the exception to "memory mirrors storage" for strings:
   * memory holds the empty string while storage holds nothing.
   */
  lemma PersistEmptyString(s: AuthState)
    ensures Persist(s, Str("")).token == Str("") && Persist(s, Str("")).saved == None
  {
  }

  /** The stored value after persisting a string token is that string exactly when it is non-empty. */
  lemma PersistStringStores(s: AuthState, t: string)
    ensures Persist(s, Str(t)).saved == (if t != "" then Some(t) else None)
  {
  }

  /** `login` persists exactly the returned token; a failed login persists nothing and keeps memory. */
  lemma LoginSpec(s: AuthState, reply: Reply)
    ensures LoginOutcome(reply).Ok? <==> LoginResult(reply).Ok?
    ensures LoginResult(reply).Ok? ==>
              AfterLogin(s, reply).token == LoginResult(reply).value
              && AfterLogin(s, reply).saved == Some(JsString(LoginResult(reply).value))
              && Synced(AfterLogin(s, reply))
    ensures LoginResult(reply).Err? ==>
              AfterLogin(s, reply).token == s.token
              && AfterLogin(s, reply).saved == (if ClearsToken(reply) then None else s.saved)
    ensures AfterLogin(s, reply).loading == s.loading
  {
    LoginOutcomeMatches(reply);
  }

  lemma LoginOutcomeMatches(reply: Reply)
    ensures LoginOutcome(reply).Ok? <==> LoginResult(reply).Ok?
    ensures LoginOutcome(reply).Err? ==> LoginOutcome(reply).error == LoginResult(reply).error
  {
  }

  /** A successful login from an agreeing state keeps memory and storage agreeing; so does a failure that is not a 401. */
  lemma LoginKeepsSynced(s: AuthState, reply: Reply)
    requires Synced(s)
    requires !ClearsToken(reply)
    ensures Synced(AfterLogin(s, reply))
  {
  }

  /**
   * `register` with a non-empty string body persists that string and makes no
   * login; with any other successful body it logs in and persists the login's
   * token in memory and storage, and a failed login leaves the memory token.
   */
  lemma RegisterSpec(s: AuthState, registerReply: Reply, loginReply: Reply)
    ensures Settle(registerReply).Ok? && IsTokenString(registerReply.body) ==>
              AfterRegister(s, registerReply, loginReply).token == registerReply.body
              && AfterRegister(s, registerReply, loginReply).saved == Some(registerReply.body.s)
              && RegisterOutcome(registerReply, loginReply) == Ok(())
    ensures Settle(registerReply).Ok? && !IsTokenString(registerReply.body) ==>
              RegisterOutcome(registerReply, loginReply) == LoginOutcome(loginReply)
              && (LoginResult(loginReply).Ok? ==> AfterRegister(s, registerReply, loginReply).token == LoginResult(loginReply).value)
    ensures Settle(registerReply).Ok? && !IsTokenString(registerReply.body) && LoginResult(loginReply).Ok? ==>
              AfterRegister(s, registerReply, loginReply).saved == Some(JsString(LoginResult(loginReply).value))
    ensures Settle(registerReply).Ok? && !IsTokenString(registerReply.body) && LoginResult(loginReply).Err? ==>
              AfterRegister(s, registerReply, loginReply).token == s.token
    ensures Settle(registerReply).Err? ==>
              AfterRegister(s, registerReply, loginReply).token == s.token
              && RegisterOutcome(registerReply, loginReply).Err?
  {
    LoginSpec(s.(saved := StoredAfterRegister(s.saved, registerReply)), loginReply);
  }

  /**
   * The client's `register` returns the raw body, so an object body carrying a
   * token is stored by the client and then still followed by a login. If that
   * login fails, registration rejects with memory unchanged while storage
   * already holds the register token.
   */
  lemma RegisterObjectBodyThenFailedLogin(s: AuthState, tok: string, loginReply: Reply)
    requires tok != "" && Settle(loginReply).Err? && !ClearsToken(loginReply)
    ensures var body := Obj(map["token" := Str(tok)]);
            var t := AfterRegister(s, Reply(200, body), loginReply);
            && RegisterOutcome(Reply(200, body), loginReply).Err?
            && t.token == s.token
            && t.saved == Some(tok)
  {
    var body := Obj(map["token" := Str(tok)]);
    assert TokenOf(body) == Str(tok);
  }

  /** However the client call ends, logout leaves no token in memory or storage. */
  lemma LogoutClears(s: AuthState)
    ensures AfterLogout(s).token == Null && AfterLogout(s).saved == None
    ensures AfterLogout(s).loading == s.loading
    ensures Synced(AfterLogout(s))
  {
  }

  /**
   * A 401 reply clears storage only: a signed-in memory token stays, so memory
   * and storage disagree until the next persist.
   */
  lemma UnauthorizedDiverges(s: AuthState, body: JsValue)
    requires Truthy(s.token) && Synced(s)
    ensures AfterCall(s, Reply(401, body)).token == s.token
    ensures AfterCall(s, Reply(401, body)).saved == None
    ensures !Synced(AfterCall(s, Reply(401, body)))
  {
  }

  /** Every other reply leaves the whole state as it was. */
  lemma OtherRepliesKeepState(s: AuthState, reply: Reply)
    requires !ClearsToken(reply)
    ensures AfterCall(s, reply) == s
  {
  }

  // ---------------------------------------------------------------- the provider as an object

  /** The provider's state fields, next to the store it writes. */
  class Session {
    var token: JsValue
    var loading: bool
    const store: TokenStore

    function State(): AuthState
      reads this, store
    {
      AuthState(token, loading, store.saved)
    }

    /** Before the restore effect: no token, still loading. */
    constructor (store: TokenStore)
      ensures this.store == store
      ensures State() == AuthState(Null, true, store.saved)
    {
      token := Null;
      loading := true;
      this.store := store;
    }

    /** The restore effect: read the store into memory, then stop loading, even when the read fails. */
    method Restore(readFails: bool)
      modifies this
      ensures State() == AfterRestore(old(State()), readFails)
    {
      if !readFails {
        var saved := store.GetItem();
        token := TokenValue(saved);
      }
      loading := false;
    }

    /** `persistToken(t)` */
    method PersistToken(t: JsValue)
      modifies this, store
      ensures State() == Persist(old(State()), t)
    {
      token := t;
      if Truthy(t) {
        store.SetItem(JsString(t));
      } else {
        store.RemoveItem();
      }
    }

    /** `login(email, password)` */
    method Login(email: string, password: string, reply: Reply) returns (r: Result<(), ClientError>)
      modifies this, store
      ensures r == LoginOutcome(reply)
      ensures State() == AfterLogin(old(State()), reply)
    {
      var t := Client.Login(store, email, password, reply);
      if t.Err? {
        return Err(t.error);
      }
      PersistToken(t.value);
      r := Ok(());
    }

    /** `register(email, password)`; `loginReply` answers the fallback login when one is made. */
    method Register(email: string, password: string, registerReply: Reply, loginReply: Reply) returns (r: Result<(), ClientError>)
      modifies this, store
      ensures r == RegisterOutcome(registerReply, loginReply)
      ensures State() == AfterRegister(old(State()), registerReply, loginReply)
    {
      var maybeToken := Client.Register(store, email, password, registerReply);
      if maybeToken.Err? {
        return Err(maybeToken.error);
      }
      if maybeToken.value.Str? && |maybeToken.value.s| > 0 {
        PersistToken(maybeToken.value);
        return Ok(());
      }
      r := Login(email, password, loginReply);
    }

    /** `logout()`; `callFails` is the client call rejecting, which the caller then sees. */
    method Logout(callFails: bool) returns (r: Result<(), string>)
      modifies this, store
      ensures r.Ok? <==> !callFails
      ensures State() == AfterLogout(old(State()))
    {
      if !callFails {
        Client.Logout(store);
      }
      PersistToken(Null);
      r := if callFails then Err("logout failed") else Ok(());
    }

    /** Any other API call through the response hook. */
    method Call(data: JsValue, reply: Reply) returns (r: Result<JsValue, HttpError>)
      modifies store
      ensures r == Settle(reply)
      ensures State() == AfterCall(old(State()), reply)
    {
      var _, settled := Send(store, data, reply);
      r := settled;
    }
  }
}
