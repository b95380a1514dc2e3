/**
 * The remote access gateway as the core sees it. Every call either resolves
 * with the server's data or rejects with the gateway's normalised error
 * object `{error, field, status}` (plus a `tokenExpired` flag that the login
 * handler tests). The operations of the core turn these into replies of the
 * shape `{success, error, field}`.
 */
module Gateway {
  import opened Wrappers

  /** The identity snapshot the server returns for a user. */
  datatype User = User(
    id: int,
    username: string,
    displayName: Option<string>,
    bio: Option<string>,
    profilePhotoUrl: Option<string>)

  /** What one gateway call produced: its data, or the normalised error it was rejected with. */
  datatype Outcome<+T> =
    | Ok(value: T)
    | Err(error: Option<string>, field: Option<string>, status: int, tokenExpired: bool)

  /**
   * What an operation of the core returns to its caller:
   * `{success: true, ...data}`, `{success: false, error, field}`, or the
   * distinguished `{success: false, error, tokenExpired: true}`.
   */
  datatype Reply<+T> =
    | Done(data: T)
    | Failed(error: string, field: Option<string>)
    | Expired(error: string)

  /** JavaScript truthiness of an optional string: neither missing nor empty. */
  predicate Truthy(s: Option<string>)
  {
    s.Some? && s.value != ""
  }

  /** An optional message if it is truthy, the fallback otherwise. */
  function OrDefault(e: Option<string>, fallback: string): (r: string)
    ensures Truthy(e) ==> r == e.value
    ensures !Truthy(e) ==> r == fallback
    ensures fallback != "" ==> r != ""
  {
    if Truthy(e) then e.value else fallback
  }

  /** The reply an operation builds from a rejected gateway call: the message defaults to `fallback`. */
  function FailureReply<T, U>(o: Outcome<T>, fallback: string): (r: Reply<U>)
    requires o.Err?
    ensures r.Failed? && r.field == o.field
    ensures fallback != "" ==> r.error != ""
  {
    Failed(OrDefault(o.error, fallback), o.field)
  }
}
