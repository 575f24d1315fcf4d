/** The server's `authenticate`: a token the client sends in its
    `Authorization` header is validated with `"Bearer "` removed; without
    one, the cached token is validated and, if rejected, refreshed once and
    validated again. Every failure comes out as one `ValueError` whose message
    starts with "Authentication failed: ". */
module Server {
  import opened Envelope
  import opened Text

  const AUTH_PREFIX := "Authentication failed: "
  const API_KEY_FAILURE := "Failed to authenticate with API key"
  const CLIENT_TOKEN_FAILURE := "Invalid client-provided token"

  /** The calls on the auth client, in order, and how the call ended. */
  datatype AuthRun = AuthRun(events: seq<Event>, outcome: Reply<bool>)

  /** `not auth_header`: no header, or an empty one, selects the cached token. */
  predicate UsesCache(header: Option<string>) {
    header.None? || header.value == []
  }

  /** Validating the cached token, refreshing it once if it is rejected and
      validating the new one. `check` is the first answer of the auth client,
      `refresh` what the refresh yields, `recheck` the answer for the new token. */
  function CachedAttempt(check: Reply<bool>, refresh: Reply<string>, recheck: Reply<bool>): AuthRun {
    match check
    case Raised(e) => AuthRun([Validate(None)], Raised(e))
    case Returned(true) => AuthRun([Validate(None)], Returned(true))
    case Returned(false) =>
      match refresh
      case Raised(e) => AuthRun([Validate(None), Refresh], Raised(e))
      case Returned(token) =>
        var events := [Validate(None), Refresh, Validate(Some(token))];
        match recheck
        case Raised(e) => AuthRun(events, Raised(e))
        case Returned(ok) =>
          if ok then AuthRun(events, Returned(true)) else AuthRun(events, Raised(ValueError(API_KEY_FAILURE)))
  }

  /** Validating the client's own token. */
  function HeaderAttempt(header: string, check: Reply<bool>): AuthRun {
    var events := [Validate(Some(WithoutBearer(header)))];
    match check
    case Raised(e) => AuthRun(events, Raised(e))
    case Returned(ok) =>
      if ok then AuthRun(events, Returned(true)) else AuthRun(events, Raised(ValueError(CLIENT_TOKEN_FAILURE)))
  }

  /** The body of the `try`; `lookup` is what reading the request's
      `Authorization` header gave. */
  function Attempt(lookup: Reply<Option<string>>, check: Reply<bool>,
                   refresh: Reply<string>, recheck: Reply<bool>): AuthRun {
    match lookup
    case Raised(e) => AuthRun([], Raised(e))
    case Returned(header) =>
      if UsesCache(header) then CachedAttempt(check, refresh, recheck) else HeaderAttempt(header.value, check)
  }

  /** The `except` clause: any exception becomes
      `ValueError("Authentication failed: " + str(e))`. */
  function Rewrap(outcome: Reply<bool>): Reply<bool> {
    if outcome.Raised? then Raised(ValueError(AUTH_PREFIX + outcome.exc.text)) else outcome
  }

  function AuthenticateRun(lookup: Reply<Option<string>>, check: Reply<bool>,
                           refresh: Reply<string>, recheck: Reply<bool>): AuthRun {
    var attempt := Attempt(lookup, check, refresh, recheck);
    AuthRun(attempt.events, Rewrap(attempt.outcome))
  }

  /** The header lookup succeeded and selected the cached token. */
  predicate FromCache(lookup: Reply<Option<string>>) {
    lookup.Returned? && UsesCache(lookup.value)
  }

  /** The cached token afterwards, when one was cached before or the header
      was used: replaced only by a successful refresh. */
  function CachedAfter(cached: Option<string>, lookup: Reply<Option<string>>,
                       check: Reply<bool>, refresh: Reply<string>): Option<string> {
    if FromCache(lookup) && check == Returned(false) && refresh.Returned?
    then Some(refresh.value)
    else cached
  }

  /** The `try` body, with the exception it raises as its outcome. */
  method TryAuthenticate(log: Trace, auth: AuthClient, lookup: Reply<Option<string>>,
                         check: Reply<bool>, refresh: Reply<string>, recheck: Reply<bool>)
    returns (r: Reply<bool>)
    modifies log, auth
    ensures log.events == old(log.events) + Attempt(lookup, check, refresh, recheck).events
    ensures r == Attempt(lookup, check, refresh, recheck).outcome
    ensures old(auth.cached).Some? || !FromCache(lookup) ==>
      auth.cached == CachedAfter(old(auth.cached), lookup, check, refresh)
    ensures FromCache(lookup) && check == Returned(false) && refresh.Returned? ==>
      auth.cached == Some(refresh.value)
  {
    if lookup.Raised? {
      return Raised(lookup.exc);
    }
    var header := lookup.value;
    if header.None? || header.value == [] {
      var valid := auth.ValidateToken(log, None, check);
      if valid.Raised? {
        return Raised(valid.exc);
      }
      if valid.value {
        return Returned(true);
      }
      var token := auth.RefreshToken(log, refresh);
      if token.Raised? {
        return Raised(token.exc);
      }
      valid := auth.ValidateToken(log, Some(token.value), recheck);
      if valid.Raised? {
        return Raised(valid.exc);
      }
      if !valid.value {
        return Raised(ValueError(API_KEY_FAILURE));
      }
      return Returned(true);
    } else {
      var token := WithoutBearer(header.value);
      var valid := auth.ValidateToken(log, Some(token), check);
      if valid.Raised? {
        return Raised(valid.exc);
      }
      if !valid.value {
        return Raised(ValueError(CLIENT_TOKEN_FAILURE));
      }
      return Returned(true);
    }
  }

  method Authenticate(log: Trace, auth: AuthClient, lookup: Reply<Option<string>>,
                      check: Reply<bool>, refresh: Reply<string>, recheck: Reply<bool>)
    returns (r: Reply<bool>)
    modifies log, auth
    ensures log.events == old(log.events) + AuthenticateRun(lookup, check, refresh, recheck).events
    ensures r == AuthenticateRun(lookup, check, refresh, recheck).outcome
    ensures old(auth.cached).Some? || !FromCache(lookup) ==>
      auth.cached == CachedAfter(old(auth.cached), lookup, check, refresh)
    ensures FromCache(lookup) && check == Returned(false) && refresh.Returned? ==>
      auth.cached == Some(refresh.value)
  {
    r := TryAuthenticate(log, auth, lookup, check, refresh, recheck);
    if r.Raised? {
      r := Raised(ValueError(AUTH_PREFIX + r.exc.text));
    }
  }

  /** `Authenticate` never returns false: it returns true, or raises a
      `ValueError` whose message starts with "Authentication failed: ". It
      returns true exactly when the last validation it made accepted the
      token. */
  lemma AuthenticateNeverFalse(lookup: Reply<Option<string>>, check: Reply<bool>,
                               refresh: Reply<string>, recheck: Reply<bool>)
    ensures var run := AuthenticateRun(lookup, check, refresh, recheck);
      (run.outcome == Returned(true) ||
       (run.outcome.Raised? && run.outcome.exc.ValueError? &&
        |run.outcome.exc.text| >= |AUTH_PREFIX| && run.outcome.exc.text[..|AUTH_PREFIX|] == AUTH_PREFIX)) &&
      (run.outcome == Returned(true) <==>
       lookup.Returned? &&
       (if UsesCache(lookup.value)
        then check == Returned(true) || (check == Returned(false) && refresh.Returned? && recheck == Returned(true))
        else check == Returned(true)))
  {
    var attempt := Attempt(lookup, check, refresh, recheck);
    if attempt.outcome.Raised? {
      assert (AUTH_PREFIX + attempt.outcome.exc.text)[..|AUTH_PREFIX|] == AUTH_PREFIX;
    }
  }

  /** No header, or an empty one: the cached token is validated. If it is
      accepted the result is true, with no refresh and the cache untouched. */
  lemma AuthenticateCachedValid(lookup: Reply<Option<string>>, refresh: Reply<string>, recheck: Reply<bool>)
    requires lookup == Returned(None) || lookup == Returned(Some(""))
    ensures var run := AuthenticateRun(lookup, Returned(true), refresh, recheck);
      run.outcome == Returned(true) && run.events == [Validate(None)] &&
      Kept(run.events, RefreshKind) == [] &&
      forall cached :: CachedAfter(cached, lookup, Returned(true), refresh) == cached
  {
    KeptOne(Validate(None), RefreshKind);
  }

  /** A rejected cached token is refreshed exactly once, and the new token is
      the one validated next and the one cached afterwards; if it is rejected
      too the call fails with "Authentication failed: Failed to authenticate
      with API key". */
  lemma AuthenticateRefreshesOnce(lookup: Reply<Option<string>>, token: string, recheck: Reply<bool>)
    requires lookup.Returned? && UsesCache(lookup.value)
    ensures var run := AuthenticateRun(lookup, Returned(false), Returned(token), recheck);
      run.events == [Validate(None), Refresh, Validate(Some(token))] &&
      Kept(run.events, RefreshKind) == [Refresh] &&
      (forall cached :: CachedAfter(cached, lookup, Returned(false), Returned(token)) == Some(token)) &&
      (recheck == Returned(false) ==> run.outcome == Raised(ValueError(AUTH_PREFIX + API_KEY_FAILURE))) &&
      (recheck == Returned(true) ==> run.outcome == Returned(true))
  {
    KeptThree(Validate(None), Refresh, Validate(Some(token)), RefreshKind);
  }

  /** A refresh that fails leaves the cached token as it was and is reported
      through the same prefix. */
  lemma AuthenticateRefreshFails(lookup: Reply<Option<string>>, e: Exc, recheck: Reply<bool>)
    requires lookup.Returned? && UsesCache(lookup.value)
    ensures var run := AuthenticateRun(lookup, Returned(false), Raised(e), recheck);
      run.events == [Validate(None), Refresh] &&
      run.outcome == Raised(ValueError(AUTH_PREFIX + e.text)) &&
      forall cached :: CachedAfter(cached, lookup, Returned(false), Raised(e)) == cached
  {
  }

  /** At most one refresh in any run, and one only after the cached token
      was rejected. */
  lemma AuthenticateRefreshesAtMostOnce(lookup: Reply<Option<string>>, check: Reply<bool>,
                                        refresh: Reply<string>, recheck: Reply<bool>)
    ensures var run := AuthenticateRun(lookup, check, refresh, recheck);
      |Kept(run.events, RefreshKind)| <= 1 &&
      (Kept(run.events, RefreshKind) != [] <==>
       lookup.Returned? && UsesCache(lookup.value) && check == Returned(false))
  {
    if lookup.Returned? {
      if !UsesCache(lookup.value) {
        KeptOne(Validate(Some(WithoutBearer(lookup.value.value))), RefreshKind);
      } else if check != Returned(false) {
        KeptOne(Validate(None), RefreshKind);
      } else if refresh.Raised? {
        KeptTwo(Validate(None), Refresh, RefreshKind);
      } else {
        KeptThree(Validate(None), Refresh, Validate(Some(refresh.value)), RefreshKind);
      }
    }
  }

  /** A non-empty header: the token validated is the header with every
      occurrence of "Bearer " removed; there is no refresh and the cache is
      untouched; a rejected token fails with "Authentication failed: Invalid
      client-provided token". */
  lemma AuthenticateHeader(header: string, check: Reply<bool>, refresh: Reply<string>, recheck: Reply<bool>)
    requires header != []
    ensures var run := AuthenticateRun(Returned(Some(header)), check, refresh, recheck);
      run.events == [Validate(Some(WithoutBearer(header)))] &&
      (forall cached :: CachedAfter(cached, Returned(Some(header)), check, refresh) == cached) &&
      (check == Returned(true) ==> run.outcome == Returned(true)) &&
      (check == Returned(false) ==> run.outcome == Raised(ValueError(AUTH_PREFIX + CLIENT_TOKEN_FAILURE)))
  {
  }

  /** The usual `Bearer <token>` header validates `<token>` with every
      further occurrence of "Bearer " removed as well; a header without one is
      validated as it is. */
  lemma AuthenticateHeaderToken(t: string, check: Reply<bool>, refresh: Reply<string>, recheck: Reply<bool>)
    ensures AuthenticateRun(Returned(Some(BEARER + t)), check, refresh, recheck).events
         == [Validate(Some(WithoutBearer(t)))]
    ensures (forall i | 0 <= i < |t| :: !BearerAt(t, i)) && t != [] ==>
      AuthenticateRun(Returned(Some(t)), check, refresh, recheck).events == [Validate(Some(t))]
  {
    WithoutBearerPrefix(t);
    if (forall i | 0 <= i < |t| :: !BearerAt(t, i)) && t != [] {
      WithoutBearerNoOccurrence(t);
    }
  }

  /** When reading the header itself raises, nothing is validated and the
      exception is rewrapped. */
  lemma AuthenticateLookupFails(e: Exc, check: Reply<bool>, refresh: Reply<string>, recheck: Reply<bool>)
    ensures var run := AuthenticateRun(Raised(e), check, refresh, recheck);
      run.events == [] && run.outcome == Raised(ValueError(AUTH_PREFIX + e.text))
  {
  }
}
