/**
 * The session state machine: token, user, error and loading flag over a key-value store
 * holding `auth_token` and `user`. JSON parsing and serialising are parameters (parsing may
 * throw a fault); the two backend calls are recorded rather than performed.
 */
module UseAuth {
  import opened Prelude
  import opened ApiTypes
  import opened UseApi

  const AuthTokenKey := "auth_token"
  const UserKey := "user"

  const LoadFailure := "Failed to load authentication state"
  const SaveFailure := "Failed to save auth"
  const CallbackFailure := "Failed to complete authentication"
  const LogoutFailure := "Logout failed"
  const NotAuthenticated := "Not authenticated"
  const RefreshFailure := "Failed to refresh user"
  const RefreshStatusPrefix := "Failed to refresh user: "

  /** What `JSON.parse` yields: a value (JSON `null` is `None`) or the fault it throws. */
  datatype Parse<T> = Parsed(value: T) | Rejected(fault: Fault)

  /** A request to the auth backend: URL, HTTP method and the `Authorization` header sent. */
  datatype AuthCall = AuthCall(url: string, verb: string, authorization: string)

  /**
   * `localStorage`. When `failure` is set the store is unavailable and every access throws
   * that fault. An available store may still refuse one particular write (an exceeded quota,
   * say): `writeFault(entries, key, value)` is what `setItem(key, value)` throws over `entries`.
   */
  class Store {
    var entries: map<string, string>
    var failure: Option<Fault>
    const writeFault: (map<string, string>, string, string) -> Option<Fault>

    constructor (entries: map<string, string>, failure: Option<Fault>,
                 writeFault: (map<string, string>, string, string) -> Option<Fault>)
      ensures this.entries == entries && this.failure == failure && this.writeFault == writeFault
    {
      this.entries := entries;
      this.failure := failure;
      this.writeFault := writeFault;
    }

    /** What `setItem(key, value)` throws when the store holds `over`. */
    function SetFault(over: map<string, string>, key: string, value: string): (f: Option<Fault>)
      reads this
      ensures failure.Some? ==> f == failure
      ensures failure.None? ==> f == writeFault(over, key, value)
    {
      if failure.Some? then failure else writeFault(over, key, value)
    }

    /** `getItem(key)` on an available store: the stored string, or null. */
    function Get(key: string): (r: Option<string>)
      reads this
      ensures r.Some? <==> key in entries
      ensures r.Some? ==> r.value == entries[key]
    {
      if key in entries then Some(entries[key]) else None
    }

    /** `setItem(key, value)`: the write happens exactly when nothing is thrown. */
    method SetItem(key: string, value: string) returns (thrown: Option<Fault>)
      modifies this
      ensures thrown == SetFault(old(entries), key, value) && failure == old(failure)
      ensures entries == if thrown.None? then old(entries)[key := value] else old(entries)
    {
      thrown := SetFault(entries, key, value);
      if thrown.None? {
        entries := entries[key := value];
      }
    }

    /** `removeItem(key)`: only an unavailable store throws. */
    method RemoveItem(key: string) returns (thrown: Option<Fault>)
      modifies this
      ensures thrown == failure && failure == old(failure)
      ensures entries == if thrown.None? then old(entries) - {key} else old(entries)
    {
      thrown := failure;
      if thrown.None? {
        entries := entries - {key};
      }
    }
  }

  /** `getAuthHeader(token)`: no header for a null or empty token, else one Bearer entry. */
  function AuthHeader(token: Option<string>): (h: map<string, string>)
    ensures h == map[] <==> !Truthy(token)
    ensures h != map[] ==> h.Keys == {"Authorization"} && |h["Authorization"]| > 7
  {
    if !Truthy(token) then map[] else map["Authorization" := "Bearer " + token.value]
  }

  /** The token is read back from its header by dropping the `Bearer ` prefix. */
  lemma AuthHeaderCarriesToken(token: Option<string>)
    requires Truthy(token)
    ensures AuthHeader(token)["Authorization"][..7] == "Bearer "
    ensures AuthHeader(token)["Authorization"][7..] == token.value
  {
  }

  /** `getStoredToken()`: the stored token, or null when the store throws. */
  function GetStoredToken(store: Store): (r: Option<string>)
    reads store
    ensures store.failure.Some? ==> r.None?
    ensures store.failure.None? ==> (r.Some? <==> AuthTokenKey in store.entries)
    ensures r.Some? ==> r.value == store.entries[AuthTokenKey]
  {
    if store.failure.Some? then None else store.Get(AuthTokenKey)
  }

  /** `clearAuthData()`: removes the two auth keys and nothing else; a store fault propagates. */
  method ClearAuthData(store: Store) returns (thrown: Option<Fault>)
    modifies store
    ensures thrown == store.failure && store.failure == old(store.failure)
    ensures thrown.None? ==> store.entries == old(store.entries) - {AuthTokenKey, UserKey}
    ensures thrown.Some? ==> store.entries == old(store.entries)
  {
    thrown := store.RemoveItem(AuthTokenKey);
    if thrown.None? {
      thrown := store.RemoveItem(UserKey);
      assert store.entries == old(store.entries) - {AuthTokenKey} - {UserKey};
    }
  }

  /** `login()`: where the browser is sent to start GitHub OAuth. */
  function LoginUrl(apiUrl: string): (url: string)
    ensures |url| > |apiUrl| && url[..|apiUrl|] == apiUrl
    ensures url[|apiUrl|..] == "/api/auth/github/login"
  {
    apiUrl + "/api/auth/github/login"
  }

  /** The `useAuth` hook instance: its state, the store it persists to and the page's query. */
  class Session {
    const store: Store
    const apiUrl: string
    var token: Option<string>
    var user: Option<User>
    var isLoading: bool
    var error: Option<string>
    /** `window.location.search`, as parameters. */
    var query: seq<Param>
    /** Requests sent to the auth backend, in order. */
    ghost var calls: seq<AuthCall>

    constructor (store: Store, apiUrl: string, query: seq<Param>)
      ensures this.store == store && this.apiUrl == apiUrl && this.query == query
      ensures token == None && user == None && isLoading && error == None && calls == []
    {
      this.store := store;
      this.apiUrl := apiUrl;
      this.query := query;
      token := None;
      user := None;
      isLoading := true;
      error := None;
      calls := [];
    }

    /** `isAuthenticated = !!token && !!user`: an empty token does not count. */
    predicate IsAuthenticated()
      reads this
    {
      Truthy(token) && user.Some?
    }

    /**
     * The state `handleAuthCallback(t, u)` leaves over the entries `prior`: the session holds
     * the pair whatever happens; the token is written, then the user; the first write that
     * throws stops the rest and its message becomes the error.
     */
    ghost predicate Saved(t: string, u: Option<User>, serialize: Option<User> -> string,
                          prior: map<string, string>)
      reads this, store
    {
      var first := store.SetFault(prior, AuthTokenKey, t);
      var written := prior[AuthTokenKey := t];
      var second := store.SetFault(written, UserKey, serialize(u));
      token == Some(t) && user == u &&
      (first.Some? ==> store.entries == prior && error == Some(MessageOr(first.value, SaveFailure))) &&
      (first.None? && second.Some? ==>
         store.entries == written && error == Some(MessageOr(second.value, SaveFailure))) &&
      (first.None? && second.None? ==> store.entries == written[UserKey := serialize(u)] && error == None)
    }

    /**
     * The state `logout()` leaves over the entries `prior`: token and user cleared; both keys
     * removed and the error cleared, or the store's fault reported with the keys untouched.
     */
    ghost predicate LoggedOut(prior: map<string, string>)
      reads this, store
    {
      token == None && user == None &&
      (store.failure.None? ==> store.entries == prior - {AuthTokenKey, UserKey} && error == None) &&
      (store.failure.Some? ==>
         store.entries == prior && error == Some(MessageOr(store.failure.value, LogoutFailure)))
    }

    /**
     * `loadAuth()`: restores a non-empty token and user from the store. Loading ends on every
     * path; a store fault, or a stored user that does not parse, sets the load error (the
     * token is already restored by then).
     */
    method LoadAuth(parse: string -> Parse<Option<User>>)
      modifies this
      ensures !isLoading && query == old(query) && calls == old(calls)
      ensures store.failure.Some? ==> token == old(token) && user == old(user)
                                      && error == Some(LoadFailure)
      ensures store.failure.None? ==>
                var t := store.Get(AuthTokenKey);
                var u := store.Get(UserKey);
                token == (if Truthy(t) then t else old(token)) &&
                (!Truthy(u) ==> user == old(user) && error == old(error)) &&
                (Truthy(u) && parse(u.value).Parsed? ==>
                   user == parse(u.value).value && error == old(error)) &&
                (Truthy(u) && parse(u.value).Rejected? ==>
                   user == old(user) && error == Some(LoadFailure))
      // a non-empty stored token with a stored user that parses to a user signs the session in
      ensures store.failure.None? && Truthy(store.Get(AuthTokenKey)) && Truthy(store.Get(UserKey))
              && parse(store.Get(UserKey).value).Parsed? && parse(store.Get(UserKey).value).value.Some? ==>
                IsAuthenticated()
    {
      if store.failure.Some? {
        error := Some(LoadFailure);
        isLoading := false;
        return;
      }
      var savedToken := store.Get(AuthTokenKey);
      var savedUser := store.Get(UserKey);
      if Truthy(savedToken) {
        token := savedToken;
      }
      if Truthy(savedUser) {
        match parse(savedUser.value) {
          case Parsed(u) =>
            user := u;
          case Rejected(_) =>
            error := Some(LoadFailure);
        }
      }
      isLoading := false;
    }

    /**
     * `handleAuthCallback(token, user)`: the session takes the pair even if persisting it
     * fails; both keys are written and the error cleared, or the first throwing write's fault
     * is reported (a refused user write leaves the token written).
     */
    method HandleAuthCallback(newToken: string, newUser: Option<User>,
                              serialize: Option<User> -> string)
      modifies this, store
      ensures Saved(newToken, newUser, serialize, old(store.entries))
      ensures isLoading == old(isLoading) && query == old(query) && calls == old(calls)
      ensures store.failure == old(store.failure)
      ensures IsAuthenticated() <==> newToken != "" && newUser.Some?
    {
      token := Some(newToken);
      user := newUser;
      var thrown := store.SetItem(AuthTokenKey, newToken);
      if thrown.None? {
        thrown := store.SetItem(UserKey, serialize(newUser));
      }
      error := if thrown.Some? then Some(MessageOr(thrown.value, SaveFailure)) else None;
    }

    /**
     * The callback effect: only when both `token` and `user` are non-empty query parameters.
     * A user that parses is handed to `HandleAuthCallback` and the query is stripped; one that
     * does not sets the callback error and changes nothing else.
     */
    method ProcessUrlCallback(parseParam: string -> Parse<Option<User>>,
                              serialize: Option<User> -> string)
      modifies this, store
      ensures isLoading == old(isLoading) && calls == old(calls)
      ensures var t := Lookup(old(query), "token");
              var u := Lookup(old(query), "user");
              (!(Truthy(t) && Truthy(u)) ==>
                 token == old(token) && user == old(user) && error == old(error)
                 && query == old(query) && store.entries == old(store.entries)) &&
              (Truthy(t) && Truthy(u) && parseParam(u.value).Rejected? ==>
                 token == old(token) && user == old(user) && error == Some(CallbackFailure)
                 && query == old(query) && store.entries == old(store.entries)) &&
              (Truthy(t) && Truthy(u) && parseParam(u.value).Parsed? ==>
                 Saved(t.value, parseParam(u.value).value, serialize, old(store.entries)) && query == [])
      ensures store.failure == old(store.failure)
    {
      var t := Lookup(query, "token");
      var u := Lookup(query, "user");
      if Truthy(t) && Truthy(u) {
        match parseParam(u.value) {
          case Rejected(_) =>
            error := Some(CallbackFailure);
          case Parsed(parsed) =>
            HandleAuthCallback(t.value, parsed, serialize);
            query := [];
        }
      }
    }

    /**
     * `logout()`: notifies the backend only when a token is held (its failure is swallowed),
     * then clears token, user, both keys and the error. A store fault is reported after the
     * in-memory state has already been cleared.
     */
    method Logout()
      modifies this, store
      ensures LoggedOut(old(store.entries)) && !IsAuthenticated()
      ensures isLoading == old(isLoading) && query == old(query)
      ensures calls == old(calls) + if Truthy(old(token))
                                    then [AuthCall(apiUrl + "/api/auth/logout", "POST",
                                                   "Bearer " + old(token).value)]
                                    else []
      ensures store.failure == old(store.failure)
      // logging out of a logged-out session changes nothing and sends nothing
      ensures old(!Truthy(token) && user.None? && error.None? && store.failure.None?
                  && AuthTokenKey !in store.entries && UserKey !in store.entries) ==>
                error == None && calls == old(calls) && store.entries == old(store.entries)
    {
      if Truthy(token) {
        calls := calls + [AuthCall(apiUrl + "/api/auth/logout", "POST", "Bearer " + token.value)];
      }
      token := None;
      user := None;
      var thrown := store.RemoveItem(AuthTokenKey);
      if thrown.None? {
        thrown := store.RemoveItem(UserKey);
        assert store.entries == old(store.entries) - {AuthTokenKey} - {UserKey};
      }
      error := if thrown.Some? then Some(MessageOr(thrown.value, LogoutFailure)) else None;
    }

    /**
     * `refreshUser()`: without a token it records "Not authenticated" and sends nothing.
     * Otherwise it sends one GET of `/api/auth/me`; a 401 logs out (which notifies the
     * backend with the same token); any other failure records its message; a 2xx body
     * replaces and persists the user (JSON `null` clears it). It returns the new user only when
     * persisting it worked.
     */
    method RefreshUser(reply: Reply<User>, serialize: Option<User> -> string)
      returns (r: Option<User>)
      modifies this, store
      ensures isLoading == old(isLoading) && query == old(query) && store.failure == old(store.failure)
      ensures !Truthy(old(token)) ==>
                r.None? && error == Some(NotAuthenticated) && token == old(token)
                && user == old(user) && calls == old(calls) && store.entries == old(store.entries)
      ensures Truthy(old(token)) ==>
                var me := AuthCall(apiUrl + "/api/auth/me", "GET", "Bearer " + old(token).value);
                var logout := AuthCall(apiUrl + "/api/auth/logout", "POST", "Bearer " + old(token).value);
                calls == old(calls) + (if reply.Received? && reply.response.status == 401
                                       then [me, logout] else [me])
      ensures Truthy(old(token)) && reply.Received? && reply.response.status == 401 ==>
                r.None? && LoggedOut(old(store.entries))
      ensures Truthy(old(token)) && reply.Received? && !Ok(reply.response.status)
              && reply.response.status != 401 ==>
                r.None? && token == old(token) && user == old(user)
                && error == Some(RefreshStatusPrefix + reply.response.statusText)
                && store.entries == old(store.entries)
      ensures Truthy(old(token)) && reply.Failed? ==>
                r.None? && token == old(token) && user == old(user)
                && error == Some(MessageOr(reply.fault, RefreshFailure))
                && store.entries == old(store.entries)
      ensures Truthy(old(token)) && reply.Received? && Ok(reply.response.status)
              && reply.response.body.Unparsable? ==>
                r.None? && token == old(token) && user == old(user)
                && error == Some(MessageOr(reply.response.body.fault, RefreshFailure))
                && store.entries == old(store.entries)
      ensures Truthy(old(token)) && reply.Received? && Ok(reply.response.status)
              && !reply.response.body.Unparsable? ==>
                var u := if reply.response.body.Json? then Some(reply.response.body.value) else None;
                var thrown := old(store.SetFault(store.entries, UserKey, serialize(u)));
                token == old(token) && user == u &&
                (thrown.None? ==> store.entries == old(store.entries)[UserKey := serialize(u)]
                                  && error == None && r == u) &&
                (thrown.Some? ==> store.entries == old(store.entries)
                                  && error == Some(MessageOr(thrown.value, RefreshFailure)) && r.None?)
      ensures r.Some? ==> user == r && error == None
    {
      if !Truthy(token) {
        error := Some(NotAuthenticated);
        return None;
      }
      calls := calls + [AuthCall(apiUrl + "/api/auth/me", "GET", "Bearer " + token.value)];
      match reply {
        case Failed(f) =>
          error := Some(MessageOr(f, RefreshFailure));
          return None;
        case Received(resp) =>
          if !Ok(resp.status) {
            if resp.status == 401 {
              Logout();
              return None;
            }
            error := Some(RefreshStatusPrefix + resp.statusText);
            return None;
          }
          if resp.body.Unparsable? {
            error := Some(MessageOr(resp.body.fault, RefreshFailure));
            return None;
          }
          var u := if resp.body.Json? then Some(resp.body.value) else None;
          user := u;
          var thrown := store.SetItem(UserKey, serialize(u));
          if thrown.Some? {
            error := Some(MessageOr(thrown.value, RefreshFailure));
            return None;
          }
          error := None;
          return u;
      }
    }
  }
}
