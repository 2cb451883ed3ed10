/** Resolving the API credential from the environment, and the wrapper that turns
    any exception of an API call into a fatal exit. */
module ApiClient {
  import opened Base

  const PrimaryTokenVar := "DIGITALOCEAN_TOKEN"
  const FallbackTokenVar := "DO_TOKEN"

  /** A client handle; nothing about the token is checked locally. */
  datatype Client = Client(token: string)

  /** `os.getenv(name)`, with an unset variable reading as the empty string: both
      are false under Python's `or`. */
  function GetEnv(env: map<string, string>, name: string): string {
    if name in env then env[name] else ""
  }

  /** `os.getenv("DIGITALOCEAN_TOKEN") or os.getenv("DO_TOKEN")`, then the fatal
      exit with status 1 when that is empty. */
  function GetClient(env: map<string, string>): (r: Outcome<Client>)
    ensures r.Done? || r == Exit(1)
    ensures r.Done? <==> GetEnv(env, PrimaryTokenVar) != "" || GetEnv(env, FallbackTokenVar) != ""
    ensures r.Done? && GetEnv(env, PrimaryTokenVar) != "" ==> r.value.token == GetEnv(env, PrimaryTokenVar)
    ensures r.Done? && GetEnv(env, PrimaryTokenVar) == "" ==> r.value.token == GetEnv(env, FallbackTokenVar)
  {
    var primary := GetEnv(env, PrimaryTokenVar);
    var token := if primary != "" then primary else GetEnv(env, FallbackTokenVar);
    if token == "" then Exit(1) else Done(Client(token))
  }

  /** The client is never bound to an empty token. */
  lemma ClientTokenNonEmpty(env: map<string, string>)
    ensures GetClient(env).Done? ==> GetClient(env).value.token != ""
  {
  }

  /** Once the primary variable holds a token, nothing the fallback variable holds
      changes the outcome. */
  lemma FallbackIgnoredWhenPrimarySet(env: map<string, string>, other: string)
    requires GetEnv(env, PrimaryTokenVar) != ""
    ensures GetClient(env[FallbackTokenVar := other]) == GetClient(env)
  {
    assert GetEnv(env[FallbackTokenVar := other], PrimaryTokenVar) == GetEnv(env, PrimaryTokenVar);
  }

  /** How a wrapped call ended: with a value, or by raising. */
  datatype CallResult<T> = Returned(value: T) | Raised(message: string)

  /** `handle_api_error(func)` applied to one call: the call's value when it
      returns, an exit with status 1 when it raises. */
  function HandleApiError<T>(call: CallResult<T>): (r: Outcome<T>)
    ensures r.Done? <==> call.Returned?
    ensures r.Done? ==> r.value == call.value
    ensures !r.Done? ==> r == Exit(1)
  {
    match call
    case Returned(v) => Done(v)
    case Raised(_) => Exit(1)
  }
}
