/**
 * The session manager: the in-memory `user`, `token` and `loading` state
 * together with the two persisted slots it reads at start-up and rewrites
 * on login, logout and expiry.
 *
 * Each operation is specified by a step function over the whole `Session`
 * value; the `AuthProvider` class performs the same step on its fields and
 * on the shared `Storage` object, and its postconditions tie the two.
 */
module AuthContext {
  import opened Wrappers
  import opened Gateway
  import opened TokenUtils

  const SessionExpiredMessage := "Session expired. Please login again."
  const LoginFailedMessage := "Login failed"
  const SignupFailedMessage := "Signup failed"

  /** The session state together with what the persisted store holds. */
  datatype Session = Session(user: Option<User>, token: Option<Token>, loading: bool, slots: Slots)

  /** The login endpoint's response body. */
  datatype LoginData = LoginData(user: User, token: Token)

  /** The state the provider mounts with: nothing in memory, start-up still in progress. */
  function Mounted(slots: Slots): Session
  {
    Session(None, None, true, slots)
  }

  /** The session counts as authenticated exactly when it holds a truthy token. */
  predicate Authenticated(s: Session): (b: bool)
    ensures s.token.None? ==> !b
    ensures s.token.Some? && s.token.value.raw == "" ==> !b
    ensures s.token.Some? && s.token.value.raw != "" ==> b
  {
    Present(s.token)
  }

  /** A user held in memory comes with a token, and the store holds that same token and user. */
  predicate Consistent(s: Session)
  {
    s.user.Some? ==>
      s.token.Some? && s.slots.token == s.token &&
      s.slots.user.Some? && ParseUser(s.slots.user.value) == s.user
  }

  /** Both slots hold something truthy, so start-up looks at them. */
  predicate SlotsFilled(slots: Slots)
  {
    Present(slots.token) && StoredUserPresent(slots.user)
  }

  /**
   * Start-up: with both slots filled and the stored token unexpired, the
   * token is adopted and then the stored user is parsed; a user that does
   * not parse, or an expired token, purges both slots. `loading` ends false.
   */
  function BootstrapStep(s: Session, nowMs: int): (r: Session)
    ensures !r.loading
    ensures !SlotsFilled(s.slots) ==> r == s.(loading := false)
    ensures r.slots == s.slots || r.slots == NoSlots
    ensures r.slots != s.slots <==>
              SlotsFilled(s.slots) && (IsTokenExpired(s.slots.token, nowMs) || ParseUser(s.slots.user.value).None?)
    ensures r.token != s.token ==> r.token == s.slots.token && !IsTokenExpired(r.token, nowMs)
    ensures SlotsFilled(s.slots) && !IsTokenExpired(s.slots.token, nowMs) ==> r.token == s.slots.token
    ensures r.user != s.user ==> r.user.Some? && r.user == ParseUser(s.slots.user.value) && r.slots == s.slots
    ensures SlotsFilled(s.slots) && !IsTokenExpired(s.slots.token, nowMs) && ParseUser(s.slots.user.value).Some? ==>
              r.user == ParseUser(s.slots.user.value)
  {
    if SlotsFilled(s.slots) then
      if !IsTokenExpired(s.slots.token, nowMs) then
        var adopted := s.(token := s.slots.token);
        match ParseUser(s.slots.user.value)
        case Some(u) => adopted.(user := Some(u), loading := false)
        case None => adopted.(slots := NoSlots, loading := false)
      else
        s.(slots := NoSlots, loading := false)
    else
      s.(loading := false)
  }

  /**
   * The periodic expiry check. It runs only while a token is held; an
   * expired token purges both slots and drops the session, anything else
   * changes nothing.
   */
  function SweepStep(s: Session, nowMs: int): (r: Session)
    ensures Authenticated(r) ==> !IsTokenExpired(r.token, nowMs)
    ensures Authenticated(s) && IsTokenExpired(s.token, nowMs) ==>
              r.user.None? && r.token.None? && r.slots == NoSlots
    ensures !(Authenticated(s) && IsTokenExpired(s.token, nowMs)) ==> r == s
    ensures r.loading == s.loading
  {
    if Authenticated(s) && IsTokenExpired(s.token, nowMs) then
      s.(user := None, token := None, slots := NoSlots)
    else
      s
  }

  /**
   * Login. Success persists and adopts the returned token and user; a
   * rejection flagged as an expired token purges the session and reports the
   * fixed "session expired" message; any other rejection changes nothing and
   * passes the gateway's message (default "Login failed") and field on.
   */
  function LoginStep(s: Session, outcome: Outcome<LoginData>): (r: (Session, Reply<()>))
    ensures r.1.Done? <==> outcome.Ok?
    ensures outcome.Ok? ==>
              r.0.user == Some(outcome.value.user) && r.0.token == Some(outcome.value.token) &&
              r.0.slots == Slots(Some(outcome.value.token), Some(Serialized(outcome.value.user))) &&
              Consistent(r.0)
    ensures r.1.Expired? <==> outcome.Err? && outcome.tokenExpired
    ensures r.1.Expired? ==>
              r.1.error == SessionExpiredMessage && r.0 == s.(user := None, token := None, slots := NoSlots)
    ensures r.1.Failed? ==>
              r.0 == s && r.1.error == OrDefault(outcome.error, LoginFailedMessage) && r.1.field == outcome.field
    ensures r.0.loading == s.loading
  {
    match outcome
    case Ok(d) =>
      (s.(user := Some(d.user), token := Some(d.token), slots := Slots(Some(d.token), Some(Serialized(d.user)))),
       Done(()))
    case Err(_, _, _, tokenExpired) =>
      if tokenExpired then
        (s.(user := None, token := None, slots := NoSlots), Expired(SessionExpiredMessage))
      else
        (s, FailureReply(outcome, LoginFailedMessage))
  }

  /** Signup's reply: the server's message on success, else its error (default "Signup failed") and field. */
  function SignupReply(outcome: Outcome<Option<string>>): (r: Reply<Option<string>>)
    ensures r.Done? <==> outcome.Ok?
    ensures r.Done? ==> r.data == outcome.value
    ensures r.Failed? ==> r.error == OrDefault(outcome.error, SignupFailedMessage) && r.field == outcome.field
    ensures !r.Expired?
  {
    match outcome
    case Ok(message) => Done(message)
    case Err(_, _, _, _) => FailureReply(outcome, SignupFailedMessage)
  }

  /** Logout purges both slots and drops the session, whatever the state. */
  function LogoutStep(s: Session): (r: Session)
    ensures !Authenticated(r) && r.user.None? && r.token.None? && r.slots == NoSlots
    ensures r.loading == s.loading
  {
    s.(user := None, token := None, slots := NoSlots)
  }

  lemma LogoutIsIdempotent(s: Session)
    ensures LogoutStep(LogoutStep(s)) == LogoutStep(s)
  {
  }

  /** Every operation keeps the in-memory user in step with the store; start-up does so from the mounted state. */
  lemma StepsPreserveConsistency(s: Session, nowMs: int, login: Outcome<LoginData>)
    requires Consistent(s)
    ensures Consistent(SweepStep(s, nowMs))
    ensures Consistent(LoginStep(s, login).0)
    ensures Consistent(LogoutStep(s))
    ensures s.user.None? ==> Consistent(BootstrapStep(s, nowMs))
  {
  }

  /**
   * Start-up from the mounted state authenticates exactly when both slots
   * are filled and the stored token is unexpired, and holds a user exactly
   * when, in addition, the stored user parses.
   */
  lemma BootstrapFromMount(slots: Slots, nowMs: int)
    ensures Authenticated(BootstrapStep(Mounted(slots), nowMs)) <==>
              SlotsFilled(slots) && !IsTokenExpired(slots.token, nowMs)
    ensures BootstrapStep(Mounted(slots), nowMs).user.Some? <==>
              SlotsFilled(slots) && !IsTokenExpired(slots.token, nowMs) && slots.user.value.Serialized?
    ensures !SlotsFilled(slots) ==> BootstrapStep(Mounted(slots), nowMs).slots == slots
  {
  }

  /**
   * A stored user that does not parse still leaves the token adopted: the
   * session counts as authenticated with no user and an emptied store.
   */
  lemma CorruptUserKeepsToken(t: Token, text: string, nowMs: int)
    requires t.raw != "" && text != ""
    requires !IsTokenExpired(Some(t), nowMs)
    ensures var r := BootstrapStep(Mounted(Slots(Some(t), Some(Corrupt(text)))), nowMs);
            Authenticated(r) && r.user.None? && r.slots == NoSlots
  {
  }

  /** What a fresh start-up reads back after a successful login is the session the login established. */
  lemma LoginThenReloadRestores(s: Session, d: LoginData, nowMs: int)
    requires d.token.raw != ""
    requires !IsTokenExpired(Some(d.token), nowMs)
    ensures var after := LoginStep(s, Ok(d)).0;
            var reloaded := BootstrapStep(Mounted(after.slots), nowMs);
            reloaded.user == after.user && reloaded.token == after.token && reloaded.slots == after.slots
  {
  }

  /** A sweep at any time after the held token has expired ends the session and empties the store. */
  lemma SweepAfterExpiryLogsOut(s: Session, expiredAtMs: int, sweepMs: int)
    requires Authenticated(s)
    requires IsTokenExpired(s.token, expiredAtMs)
    requires expiredAtMs <= sweepMs
    ensures !Authenticated(SweepStep(s, sweepMs)) && SweepStep(s, sweepMs).slots == NoSlots
  {
    ExpiryIsMonotone(s.token, expiredAtMs, sweepMs);
  }

  /** The protected-route decision over the session. */
  datatype View = ShowLoading | RedirectToLogin | RenderChildren

  function RouteView(s: Session): (v: View)
    ensures v == RenderChildren <==> !s.loading && Authenticated(s)
    ensures v == RedirectToLogin <==> !s.loading && !Authenticated(s)
    ensures v == ShowLoading <==> s.loading
  {
    if s.loading then ShowLoading
    else if !Authenticated(s) then RedirectToLogin
    else RenderChildren
  }

  /** An expired stored token at start-up sends the viewer to the login page and empties the store. */
  lemma ExpiredStoredTokenRedirects(slots: Slots, nowMs: int)
    requires SlotsFilled(slots) && IsTokenExpired(slots.token, nowMs)
    ensures RouteView(BootstrapStep(Mounted(slots), nowMs)) == RedirectToLogin
    ensures BootstrapStep(Mounted(slots), nowMs).slots == NoSlots
  {
  }

  /** The session provider: its three state fields and the shared persisted store. */
  class AuthProvider {
    var user: Option<User>
    var token: Option<Token>
    var loading: bool
    const storage: Storage

    function State(): Session
      reads this, storage
    {
      Session(user, token, loading, storage.Contents())
    }

    constructor (storage: Storage)
      ensures this.storage == storage
      ensures State() == Mounted(storage.Contents())
    {
      user := None;
      token := None;
      loading := true;
      this.storage := storage;
    }

    /** The start-up effect. */
    method Bootstrap(nowMs: int)
      modifies this, storage
      ensures State() == BootstrapStep(old(State()), nowMs)
    {
      var storedToken := storage.token;
      var storedUser := storage.user;
      if Present(storedToken) && StoredUserPresent(storedUser) {
        if !IsTokenExpired(storedToken, nowMs) {
          token := storedToken;
          var parsed := ParseUser(storedUser.value);
          if parsed.Some? {
            user := parsed;
          } else {
            storage.ClearExpiredToken();
          }
        } else {
          storage.ClearExpiredToken();
        }
      }
      loading := false;
    }

    /** One firing of the periodic check; it is armed only while a token is held. */
    method CheckTokenExpiry(nowMs: int)
      modifies this, storage
      ensures State() == SweepStep(old(State()), nowMs)
    {
      if !Present(token) {
        return;
      }
      if IsTokenExpired(token, nowMs) {
        storage.ClearExpiredToken();
        user := None;
        token := None;
      }
    }

    method Login(outcome: Outcome<LoginData>) returns (reply: Reply<()>)
      modifies this, storage
      ensures (State(), reply) == LoginStep(old(State()), outcome)
    {
      match outcome {
        case Ok(d) =>
          storage.SetToken(d.token);
          storage.SetUser(d.user);
          token := Some(d.token);
          user := Some(d.user);
          reply := Done(());
        case Err(error, field, _, tokenExpired) =>
          if tokenExpired {
            storage.ClearExpiredToken();
            user := None;
            token := None;
            reply := Expired(SessionExpiredMessage);
          } else {
            reply := Failed(OrDefault(error, LoginFailedMessage), field);
          }
      }
    }

    /** Signup never touches the session or the store. */
    method Signup(outcome: Outcome<Option<string>>) returns (reply: Reply<Option<string>>)
      ensures reply == SignupReply(outcome)
    {
      match outcome {
        case Ok(message) =>
          reply := Done(message);
        case Err(error, field, _, _) =>
          reply := Failed(OrDefault(error, SignupFailedMessage), field);
      }
    }

    method Logout()
      modifies this, storage
      ensures State() == LogoutStep(old(State()))
    {
      storage.ClearExpiredToken();
      user := None;
      token := None;
    }
  }
}
