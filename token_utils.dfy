/**
 * Token expiry and the two persisted session slots (`token`, `user`).
 *
 * Decoding a token is a foreign call; a `Token` therefore carries its raw
 * text together with what decoding that text yields. The clock is passed in
 * as milliseconds since the epoch.
 */
module TokenUtils {
  import opened Wrappers
  import opened Gateway

  /** What decoding a token's text yields: a failure, or the payload's `exp` claim (seconds), if any. */
  datatype Claim = Undecodable | Decoded(exp: Option<int>)

  /** A bearer token: its text and the result of decoding that text. */
  datatype Token = Token(raw: string, claim: Claim)

  /** JavaScript truthiness of an optional token: present and non-empty. */
  predicate Present(token: Option<Token>)
  {
    token.Some? && token.value.raw != ""
  }

  /** The expiry second a token can be judged by: a decoded, present and non-zero `exp`. */
  function UsableExpiry(t: Token): (e: Option<int>)
    ensures e.Some? <==> t.claim.Decoded? && t.claim.exp.Some? && t.claim.exp.value != 0
    ensures e.Some? ==> e.value == t.claim.exp.value
  {
    match t.claim
    case Undecodable => None
    case Decoded(exp) => if exp.Some? && exp.value != 0 then exp else None
  }

  /** The current whole second, rounded down; Dafny's division by a positive constant rounds down for every sign. */
  function CurrentSecond(nowMs: int): (sec: int)
    ensures sec * 1000 <= nowMs < (sec + 1) * 1000
  {
    nowMs / 1000
  }

  /**
   * The expiry decision. Anything missing, empty, undecodable or without a
   * usable `exp` counts as expired; otherwise the token is expired once the
   * whole second named by `exp` has passed.
   */
  function IsTokenExpired(token: Option<Token>, nowMs: int): (expired: bool)
    ensures !expired ==> Present(token) && UsableExpiry(token.value).Some?
    ensures Present(token) && UsableExpiry(token.value).Some? ==>
              (expired <==> (UsableExpiry(token.value).value + 1) * 1000 <= nowMs)
  {
    if !Present(token) then true
    else
      match token.value.claim
      case Undecodable => true
      case Decoded(exp) =>
        if exp.None? || exp.value == 0 then true
        else exp.value < CurrentSecond(nowMs)
  }

  /** A token stays valid through the second its `exp` names. */
  lemma ValidThroughExpirySecond(token: Token, nowMs: int)
    requires token.raw != "" && UsableExpiry(token).Some?
    requires CurrentSecond(nowMs) == UsableExpiry(token).value
    ensures !IsTokenExpired(Some(token), nowMs)
  {
  }

  /** Once expired, a token stays expired as the clock moves forward. */
  lemma ExpiryIsMonotone(token: Option<Token>, nowMs: int, laterMs: int)
    requires nowMs <= laterMs
    requires IsTokenExpired(token, nowMs)
    ensures IsTokenExpired(token, laterMs)
  {
  }

  /** The text kept in the `user` slot: a serialised user, or text that does not parse. */
  datatype StoredUser = Serialized(user: User) | Corrupt(text: string)

  /** JavaScript truthiness of the `user` slot's text (serialised JSON is never empty). */
  predicate StoredUserPresent(u: Option<StoredUser>)
  {
    u.Some? && (u.value.Corrupt? ==> u.value.text != "")
  }

  /** Parsing the `user` slot's text; serialising and then parsing gives the user back. */
  function ParseUser(s: StoredUser): (u: Option<User>)
    ensures u.Some? <==> s.Serialized?
    ensures s.Serialized? ==> u == Some(s.user)
  {
    match s
    case Serialized(user) => Some(user)
    case Corrupt(_) => None
  }

  /** What the two persisted slots hold; `None` is a missing entry. */
  datatype Slots = Slots(token: Option<Token>, user: Option<StoredUser>)

  const NoSlots := Slots(None, None)

  /** The browser's persisted store, restricted to the two slots the session uses. */
  class Storage {
    var token: Option<Token>
    var user: Option<StoredUser>

    constructor (token: Option<Token>, user: Option<StoredUser>)
      ensures this.token == token && this.user == user
    {
      this.token := token;
      this.user := user;
    }

    function Contents(): Slots
      reads this
    {
      Slots(token, user)
    }

    /** Removes both entries and nothing else. */
    method ClearExpiredToken()
      modifies this
      ensures Contents() == NoSlots
    {
      token := None;
      user := None;
    }

    /** Writes the `token` entry. */
    method SetToken(t: Token)
      modifies this
      ensures token == Some(t) && user == old(user)
    {
      token := Some(t);
    }

    /** Writes the `user` entry as the serialisation of `u`. */
    method SetUser(u: User)
      modifies this
      ensures user == Some(Serialized(u)) && token == old(token)
    {
      user := Some(Serialized(u));
    }

    /**
     * Whether the stored token may still be used: it is present and decodes
     * to an expiry whose second has not yet fully passed.
     */
    function IsTokenValid(nowMs: int): (valid: bool)
      reads this
      ensures valid <==> Present(token) && UsableExpiry(token.value).Some?
                         && nowMs < (UsableExpiry(token.value).value + 1) * 1000
    {
      Present(token) && !IsTokenExpired(token, nowMs)
    }
  }
}
