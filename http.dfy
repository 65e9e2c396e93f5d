/**
 * What both service modules share: the outcome of a `fetch` as a value, the errors the
 * services throw, the browser's localStorage as a map, and the request headers built from it
 * (src/services/authService.ts:5-26 and src/services/petService.ts:6-21 hold the same code).
 */
module Http {
  import opened Wrappers
  import Text

  /** A status code whose response has `ok` false: anything outside 200-299. */
  type FailedStatus = code: int | !(200 <= code < 300) witness 400

  /**
   * The outcome of one `fetch`: an ok response with its parsed JSON body, an ok 204 response
   * with no body, or a response whose `ok` flag is false together with its status code.
   */
  datatype Response<B> = Ok(body: B) | NoContent | Status(code: FailedStatus)

  /** What a service call throws. */
  datatype ApiError =
    | NoToken             // no stored token: thrown before any request is sent
    | SessionExpired      // the server answered 401
    | HttpError(status: int)
    | BadBody             // the engine failed to read the body (`json()` of a 204, `null.data`)

  /** The message of a thrown error; the engine's own messages (`BadBody`) are not modelled. */
  function ErrorMessage(e: ApiError): (m: Option<string>)
    ensures m.None? <==> e.BadBody?
  {
    match e
    case NoToken => Some("Token de autenticación no encontrado. Por favor, inicia sesión nuevamente.")
    case SessionExpired => Some("Sesión expirada. Por favor, inicia sesión nuevamente.")
    case HttpError(s) => Some("HTTP error! status: " + Text.IntToString(s))
    case BadBody => None
  }

  /** localStorage: keys to string values. */
  type Storage = map<string, string>

  const AuthTokenKey: string := "authToken"
  const AuthUserKey: string := "authUser"

  type Headers = seq<(string, string)>

  const JsonContentType: (string, string) := ("Content-Type", "application/json")

  /** `localStorage.getItem('authToken')`. */
  function GetAuthToken(storage: Storage): (t: Option<string>)
    ensures t.Some? <==> AuthTokenKey in storage
    ensures (t.Some? && t.value != "") <==> HasToken(storage)
  {
    if AuthTokenKey in storage then Some(storage[AuthTokenKey]) else None
  }

  /** The stored token is truthy: present and not the empty string. */
  predicate HasToken(storage: Storage)
  {
    AuthTokenKey in storage && storage[AuthTokenKey] != ""
  }

  /** The value of the first header with the given name. */
  function HeaderValue(h: Headers, name: string): Option<string>
  {
    if h == [] then None else if h[0].0 == name then Some(h[0].1) else HeaderValue(h[1..], name)
  }

  /** `createAuthHeaders`: a JSON content type, and a bearer authorization when a token is stored. */
  function CreateAuthHeaders(storage: Storage): (h: Headers)
    ensures HeaderValue(h, "Content-Type") == Some("application/json")
    ensures HasToken(storage) ==> HeaderValue(h, "Authorization") == Some("Bearer " + storage[AuthTokenKey])
    ensures !HasToken(storage) ==> HeaderValue(h, "Authorization") == None
  {
    [JsonContentType] + if HasToken(storage) then [("Authorization", "Bearer " + storage[AuthTokenKey])] else []
  }

  /** `createPublicHeaders`: only the JSON content type. */
  function CreatePublicHeaders(): (h: Headers)
    ensures HeaderValue(h, "Content-Type") == Some("application/json")
    ensures HeaderValue(h, "Authorization") == None
  {
    [JsonContentType]
  }

  /**
   * What one service call did: the storage afterwards, the headers of the request it sent
   * (`None` when it threw before sending anything), and what it returned or threw.
   */
  datatype Call<T> = Call(storage: Storage, sent: Option<Headers>, result: Result<T, ApiError>)
}
