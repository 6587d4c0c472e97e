/** The session holder (`FirebaseAuthProvider`): an in-memory bearer token, its
    authenticated flag and expiry, a loading flag, and a copy of the token and
    its expiry in the browser's persisted key/value store. */
module Auth {
  import opened Text
  import opened Remote

  const IdTokenKey := "idToken"
  const ExpirationKey := "tokenExpirationTime"
  /** Five minutes, in milliseconds: a token this close to its expiry is "refreshed". */
  const RefreshWindow := 300000
  const LoginFallback := "Authentication failed"

  /** The browser's persisted store: key to string value. */
  type Store = map<string, string>

  /** The part of a successful sign-in answer the holder uses; `expiresIn` is in seconds. */
  datatype SignInBody = SignInBody(idToken: string, expiresIn: nat)

  /** The holder's state; `expiration` is an epoch time in milliseconds. */
  datatype Session = Session(
    idToken: Option<string>,
    isAuthenticated: bool,
    loading: bool,
    expiration: Option<int>,
    store: Store)

  function Initial(store: Store): Session {
    Session(None, false, true, None, store)
  }

  /** The authenticated flag tracks token presence, and a token always comes with an expiry. */
  predicate Consistent(s: Session) {
    s.isAuthenticated == s.idToken.Some? && s.idToken.Some? == s.expiration.Some?
  }

  /** While a token is held, the store holds the same token and an expiry string
      that reads back as the same expiry. */
  predicate Persisted(s: Session) {
    s.idToken.Some? && s.expiration.Some? ==>
      && IdTokenKey in s.store && s.store[IdTokenKey] == s.idToken.value
      && ExpirationKey in s.store && ParseInt(s.store[ExpirationKey]) == Num(s.expiration.value)
  }

  predicate Valid(s: Session) {
    Consistent(s) && Persisted(s)
  }

  /** Every key other than the session's two has the same presence and value in `store` and `r`. */
  ghost predicate OthersUnchanged(store: Store, r: Store) {
    forall k :: k != IdTokenKey && k != ExpirationKey ==>
      (k in r <==> k in store) && (k in store ==> r[k] == store[k])
  }

  /** `setItem` of the token and of the expiry written with `toString`. */
  function StoreSession(store: Store, token: string, expiration: nat): (r: Store)
    ensures IdTokenKey in r && r[IdTokenKey] == token
    ensures ExpirationKey in r && ParseInt(r[ExpirationKey]) == Num(expiration)
    ensures OthersUnchanged(store, r)
  {
    var written := NatToString(expiration);
    ParseIntOfNatToString(expiration);
    store[IdTokenKey := token][ExpirationKey := written]
  }

  /** `removeItem` of both session keys. */
  function ClearSession(store: Store): (r: Store)
    ensures IdTokenKey !in r && ExpirationKey !in r
    ensures OthersUnchanged(store, r)
  {
    store - {IdTokenKey, ExpirationKey}
  }

  /** A freshly installed token, held and stored, is a valid session. */
  lemma SignedInIsValid(store: Store, token: string, expiration: nat)
    ensures Valid(Session(Some(token), true, false, Some(expiration), StoreSession(store, token, expiration)))
  {
  }

  datatype LoginResult = LoginResult(session: Session, thrown: Option<Thrown>)

  /** `login`: on a 2xx answer install the token, with expiry `now + expiresIn * 1000`,
      in memory and in the store; otherwise rethrow and change nothing but `loading`. */
  function LoginStep(s: Session, now: nat, reply: Reply<SignInBody>): (r: LoginResult)
    ensures !r.session.loading
    ensures reply.Ok? ==>
      && r.thrown.None?
      && r.session.idToken == Some(reply.body.idToken) && r.session.isAuthenticated
      && r.session.expiration == Some(now + reply.body.expiresIn * 1000)
      && r.session.store == StoreSession(s.store, reply.body.idToken, now + reply.body.expiresIn * 1000)
      && Valid(r.session)
    ensures !reply.Ok? ==>
      r.session == s.(loading := false) && r.thrown == ThrownBy(reply, LoginFallback) && r.thrown.Some?
  {
    match reply
    case Ok(body) =>
      var expiration := now + body.expiresIn * 1000;
      var session := Session(Some(body.idToken), true, false, Some(expiration),
                             StoreSession(s.store, body.idToken, expiration));
      SignedInIsValid(s.store, body.idToken, expiration);
      LoginResult(session, None)
    case _ =>
      LoginResult(s.(loading := false), ThrownBy(reply, LoginFallback))
  }

  /** `logout`: drop the token, the flag and the expiry, and both store keys. */
  function LogoutStep(s: Session): (r: Session)
    ensures r.idToken.None? && !r.isAuthenticated && r.expiration.None?
    ensures IdTokenKey !in r.store && ExpirationKey !in r.store && OthersUnchanged(s.store, r.store)
    ensures r.loading == s.loading
  {
    Session(None, false, s.loading, None, ClearSession(s.store))
  }

  /** `refreshToken`: no renewal is made; it always ends logged out, with both
      store keys gone, the other keys kept, and not loading. */
  function RefreshStep(s: Session): (r: Session)
    ensures r.idToken.None? && !r.isAuthenticated && r.expiration.None? && !r.loading
    ensures IdTokenKey !in r.store && ExpirationKey !in r.store && OthersUnchanged(s.store, r.store)
  {
    var busy := s.(loading := true);
    LogoutStep(busy).(loading := false)
  }

  /** The expiry effect's test: the expiry is truthy (set and non-zero) and
      lies strictly between now and five minutes from now. */
  predicate NeedsRefresh(expiration: Option<int>, now: int) {
    expiration.Some? && expiration.value != 0 && 0 < expiration.value - now < RefreshWindow
  }

  /** The expiry effect: refresh when the token is within five minutes of its expiry. */
  function ExpiryCheckStep(s: Session, now: nat): (r: Session)
    ensures NeedsRefresh(s.expiration, now) ==>
      && r.idToken.None? && !r.isAuthenticated && r.expiration.None? && !r.loading
      && IdTokenKey !in r.store && ExpirationKey !in r.store
    ensures !NeedsRefresh(s.expiration, now) ==> r == s
    ensures !NeedsRefresh(r.expiration, now)
  {
    if NeedsRefresh(s.expiration, now) then RefreshStep(s) else s
  }

  /** `if (storedToken && storedExpirationTime)`: both keys are present and non-empty. */
  predicate HasStoredSession(store: Store) {
    IdTokenKey in store && store[IdTokenKey] != "" && ExpirationKey in store && store[ExpirationKey] != ""
  }

  /** `Date.now() < parseInt(stored)`; every comparison with NaN is false. */
  predicate StillValid(stored: string, now: int) {
    match ParseInt(stored)
    case Num(expiration) => now < expiration
    case NaN => false
  }

  /** `checkAuth`, run once on mount: restore a stored, unexpired token; clear a
      stored but expired (or unreadable) one; leave everything as it is when
      either key is missing. */
  function CheckAuthStep(s: Session, now: nat): (r: Session)
    ensures !r.loading
    ensures !HasStoredSession(s.store) ==> r == s.(loading := false)
    ensures HasStoredSession(s.store) && StillValid(s.store[ExpirationKey], now) ==>
      && r.isAuthenticated && r.idToken == Some(s.store[IdTokenKey])
      && r.expiration == Some(ParseInt(s.store[ExpirationKey]).value)
      && now < r.expiration.value && r.store == s.store
    ensures HasStoredSession(s.store) && !StillValid(s.store[ExpirationKey], now) ==>
      && r.idToken == s.idToken && r.isAuthenticated == s.isAuthenticated && r.expiration == s.expiration
      && IdTokenKey !in r.store && ExpirationKey !in r.store && OthersUnchanged(s.store, r.store)
  {
    var busy := s.(loading := true);
    var checked :=
      if HasStoredSession(busy.store) then
        if StillValid(busy.store[ExpirationKey], now) then
          busy.(idToken := Some(busy.store[IdTokenKey]), isAuthenticated := true,
                expiration := Some(ParseInt(busy.store[ExpirationKey]).value))
        else
          busy.(store := ClearSession(busy.store))
      else busy;
    checked.(loading := false)
  }

  /** Two `removeItem` calls, one per session key, clear the session. */
  lemma RemovingBothKeysClears(store: Store)
    ensures store - {IdTokenKey} - {ExpirationKey} == ClearSession(store)
  {
  }

  /** The things that can happen to a mounted holder. */
  datatype Event =
    | LoginCall(now: nat, reply: Reply<SignInBody>)
    | LogoutCall
    | RefreshCall
    | ExpiryCheck(now: nat)

  function Apply(s: Session, e: Event): Session {
    match e
    case LoginCall(now, reply) => LoginStep(s, now, reply).session
    case LogoutCall => LogoutStep(s)
    case RefreshCall => RefreshStep(s)
    case ExpiryCheck(now) => ExpiryCheckStep(s, now)
  }

  function Run(s: Session, events: seq<Event>): Session
    decreases |events|
  {
    if events == [] then s else Run(Apply(s, events[0]), events[1..])
  }

  lemma ApplyPreservesValid(s: Session, e: Event)
    requires Valid(s)
    ensures Valid(Apply(s, e))
  {
  }

  lemma {:induction false} RunPreservesValid(s: Session, events: seq<Event>)
    requires Valid(s)
    ensures Valid(Run(s, events))
    decreases |events|
  {
    if events != [] {
      ApplyPreservesValid(s, events[0]);
      RunPreservesValid(Apply(s, events[0]), events[1..]);
    }
  }

  /** Mounting over any store, then any sequence of logins, logouts, refreshes
      and expiry checks: the flag always tracks the token, a token always has an
      expiry, and the store always agrees with the token held in memory. */
  lemma SessionLifetime(store: Store, now: nat, events: seq<Event>)
    ensures Valid(Run(CheckAuthStep(Initial(store), now), events))
  {
    RunPreservesValid(CheckAuthStep(Initial(store), now), events);
  }

  /** `logout` twice is `logout` once. */
  lemma LogoutIdempotent(s: Session)
    ensures LogoutStep(LogoutStep(s)) == LogoutStep(s)
  {
    assert ClearSession(ClearSession(s.store)) == ClearSession(s.store);
  }

  /** A login's token survives a page reload exactly until its expiry: a new
      holder mounted over the store a successful login left restores the same
      token and expiry before that time, and clears both keys from then on. An
      empty token is stored but never restored, and then the keys stay. */
  lemma ReloadAfterLogin(s: Session, loginTime: nat, body: SignInBody, now: nat)
    ensures var expiration := loginTime + body.expiresIn * 1000;
      var stored := LoginStep(s, loginTime, Ok(body)).session.store;
      var r := CheckAuthStep(Initial(stored), now);
      && (body.idToken != "" && now < expiration ==>
            r.isAuthenticated && r.idToken == Some(body.idToken) && r.expiration == Some(expiration))
      && (body.idToken != "" && expiration <= now ==>
            !r.isAuthenticated && IdTokenKey !in r.store && ExpirationKey !in r.store)
      && (body.idToken == "" ==> !r.isAuthenticated && r.store == stored)
  {
    var expiration := loginTime + body.expiresIn * 1000;
    var stored := LoginStep(s, loginTime, Ok(body)).session.store;
    assert stored[ExpirationKey] == NatToString(expiration);
    ParseIntOfNatToString(expiration);
  }

  /** The expiry effect runs again as soon as a login sets the expiry: a token
      issued for less than five minutes is dropped at once, any longer one is kept. */
  lemma LoginThenExpiryCheck(s: Session, now: nat, body: SignInBody)
    ensures var loggedIn := LoginStep(s, now, Ok(body)).session;
      (ExpiryCheckStep(loggedIn, now).isAuthenticated <==> body.expiresIn == 0 || 300 <= body.expiresIn)
  {
  }

  /** The holder object: the four state variables and the persisted store,
      updated step by step as the source does. */
  class AuthProvider {
    var idToken: Option<string>
    var isAuthenticated: bool
    var loading: bool
    var tokenExpirationTime: Option<int>
    var storage: Store

    function Snapshot(): Session
      reads this
    {
      Session(idToken, isAuthenticated, loading, tokenExpirationTime, storage)
    }

    /** A fresh holder: no token, not authenticated, no expiry, loading. */
    constructor (persisted: Store)
      ensures idToken.None? && !isAuthenticated && tokenExpirationTime.None? && loading
      ensures storage == persisted
      ensures Snapshot() == Initial(persisted)
    {
      idToken := None;
      isAuthenticated := false;
      loading := true;
      tokenExpirationTime := None;
      storage := persisted;
    }

    method Login(now: nat, reply: Reply<SignInBody>) returns (thrown: Option<Thrown>)
      modifies this
      ensures Snapshot() == LoginStep(old(Snapshot()), now, reply).session
      ensures thrown == LoginStep(old(Snapshot()), now, reply).thrown
    {
      loading := true;
      match reply {
        case Ok(body) =>
          idToken := Some(body.idToken);
          isAuthenticated := true;
          var expirationTime := now + body.expiresIn * 1000;
          tokenExpirationTime := Some(expirationTime);
          storage := storage[IdTokenKey := body.idToken];
          storage := storage[ExpirationKey := NatToString(expirationTime)];
          thrown := None;
        case _ =>
          thrown := ThrownBy(reply, LoginFallback);
      }
      loading := false;
    }

    method Logout()
      modifies this
      ensures Snapshot() == LogoutStep(old(Snapshot()))
    {
      idToken := None;
      isAuthenticated := false;
      tokenExpirationTime := None;
      storage := storage - {IdTokenKey};
      storage := storage - {ExpirationKey};
    }

    method RefreshToken()
      modifies this
      ensures Snapshot() == RefreshStep(old(Snapshot()))
    {
      loading := true;
      Logout();
      loading := false;
    }

    /** The effect that runs whenever `tokenExpirationTime` changes. */
    method CheckExpiry(now: nat)
      modifies this
      ensures Snapshot() == ExpiryCheckStep(old(Snapshot()), now)
    {
      if tokenExpirationTime.Some? && tokenExpirationTime.value != 0 {
        var timeUntilExpiration := tokenExpirationTime.value - now;
        if 0 < timeUntilExpiration < RefreshWindow {
          RefreshToken();
        }
      }
    }

    /** The effect that runs once on mount. */
    method CheckAuth(now: nat)
      modifies this
      ensures Snapshot() == CheckAuthStep(old(Snapshot()), now)
    {
      loading := true;
      var storedToken := if IdTokenKey in storage then Some(storage[IdTokenKey]) else None;
      var storedExpirationTime := if ExpirationKey in storage then Some(storage[ExpirationKey]) else None;
      if storedToken.Some? && storedToken.value != "" && storedExpirationTime.Some? && storedExpirationTime.value != "" {
        var expirationTime := ParseInt(storedExpirationTime.value);
        if expirationTime.Num? && now < expirationTime.value {
          idToken := storedToken;
          isAuthenticated := true;
          tokenExpirationTime := Some(expirationTime.value);
        } else {
          RemovingBothKeysClears(storage);
          storage := storage - {IdTokenKey};
          storage := storage - {ExpirationKey};
        }
      }
      loading := false;
    }
  }
}
