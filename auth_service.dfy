/**
 * The authentication service (src/services/authService.ts): its response handling, the
 * storage writes of login and register, the name split of the registration request and the
 * two profile builders. The storage is passed in and the call returns it updated.
 */
module AuthService {
  import opened Wrappers
  import opened Text
  import opened Types
  import opened Http

  /** `fetchFromAPI`: headers by `requireAuth`, a 401 forgets the token, other failures throw. */
  function FetchFromApi<B>(storage: Storage, requireAuth: bool, resp: Response<B>): (c: Call<B>)
    ensures c.sent == Some(if requireAuth then CreateAuthHeaders(storage) else CreatePublicHeaders())
    ensures c.result.Success? <==> resp.Ok?
    ensures resp.Ok? ==> c.result.value == resp.body && c.storage == storage
    ensures resp == Status(401) ==> c.result == Failure(SessionExpired) && c.storage == storage - {AuthTokenKey}
    ensures resp.Status? && resp.code != 401 ==> c.result == Failure(HttpError(resp.code)) && c.storage == storage
    ensures resp.NoContent? ==> c.result == Failure(BadBody) && c.storage == storage
  {
    var headers := if requireAuth then CreateAuthHeaders(storage) else CreatePublicHeaders();
    match resp
    case Ok(body) => Call(storage, Some(headers), Success(body))
    case NoContent => Call(storage, Some(headers), Failure(BadBody))
    case Status(code) =>
      if code == 401 then Call(storage - {AuthTokenKey}, Some(headers), Failure(SessionExpired))
      else Call(storage, Some(headers), Failure(HttpError(code)))
  }

  /** The call leaves every key other than `authToken` as it was. */
  lemma FetchKeepsOtherKeys<B>(storage: Storage, requireAuth: bool, resp: Response<B>, key: string)
    requires key != AuthTokenKey
    ensures var c := FetchFromApi(storage, requireAuth, resp);
      (key in c.storage <==> key in storage) && (key in storage ==> c.storage[key] == storage[key])
  {
  }

  /** `login`: a public call; the token is stored only when the body's `status` is 200. */
  function Login(storage: Storage, resp: Response<LoginApiResponse>): (c: Call<LoginApiResponse>)
    ensures c.sent == Some(CreatePublicHeaders())
    ensures c.result == FetchFromApi(storage, false, resp).result
    ensures c.result.Success? && c.result.value.status == Some(200) ==>
      c.storage == storage[AuthTokenKey := c.result.value.token]
    ensures !(c.result.Success? && c.result.value.status == Some(200)) ==>
      c.storage == FetchFromApi(storage, false, resp).storage
  {
    var f := FetchFromApi(storage, false, resp);
    if f.result.Success? && f.result.value.status == Some(200) then
      Call(f.storage[AuthTokenKey := f.result.value.token], f.sent, f.result)
    else f
  }

  /**
   * The name parts `register` sends: `name.split(' ')[0]` and
   * `name.split(' ').slice(1).join(' ')`.
   */
  function SplitName(name: string): (r: (string, string))
    ensures Contains(name, " ") ==> r.0 + " " + r.1 == name && !Contains(r.0, " ")
    ensures !Contains(name, " ") ==> r == (name, "")
  {
    var parts := Split(name, " ");
    if Contains(name, " ") then
      SplitAtFirst(name);
      (parts[0], Join(parts[1..], " "))
    else
      SplitAbsent(name, " ");
      (parts[0], Join(parts[1..], " "))
  }

  /** Cutting at the first space: the head has no space, and head, space and rest rebuild the name. */
  lemma SplitAtFirst(name: string)
    requires Contains(name, " ")
    ensures var parts := Split(name, " ");
      parts[0] + " " + Join(parts[1..], " ") == name && !Contains(parts[0], " ")
  {
    var parts := Split(name, " ");
    var i := IndexOf(name, " ").value;
    var tail := name[i + 1..];
    assert parts == [name[..i]] + Split(tail, " ");
    assert parts[1..] == Split(tail, " ");
    JoinSplit(tail, " ");
    InfixSplit(name, " ", i);
  }

  /** The registration request: the split name, the other fields verbatim. */
  function ToRegisterRequest(form: RegisterForm): (req: RegisterApiRequest)
    ensures (req.name, req.lastName) == SplitName(form.name)
    ensures req.email == form.email && req.password == form.password
    ensures req.confirmPassword == form.confirmPassword && req.phone == form.phone
  {
    var (first, last) := SplitName(form.name);
    RegisterApiRequest(first, last, form.email, form.password, form.confirmPassword, form.phone)
  }

  /** A name with a space is sent as first name and last name that rejoin to it. */
  lemma RegisterRequestRejoinsName(form: RegisterForm)
    requires Contains(form.name, " ")
    ensures var req := ToRegisterRequest(form); req.name + " " + req.lastName == form.name
  {
  }

  /** `register`: a public call; `auth_token` is stored only when the body's `status` is 200. */
  function Register(storage: Storage, resp: Response<RegisterApiResponse>): (c: Call<RegisterApiResponse>)
    ensures c.sent == Some(CreatePublicHeaders())
    ensures c.result == FetchFromApi(storage, false, resp).result
    ensures c.result.Success? && c.result.value.status == Some(200) ==>
      c.storage == storage[AuthTokenKey := c.result.value.authToken]
    ensures !(c.result.Success? && c.result.value.status == Some(200)) ==>
      c.storage == FetchFromApi(storage, false, resp).storage
  {
    var f := FetchFromApi(storage, false, resp);
    if f.result.Success? && f.result.value.status == Some(200) then
      Call(f.storage[AuthTokenKey := f.result.value.authToken], f.sent, f.result)
    else f
  }

  /** The profile `decodeToken` and `createUserFromRegistration` return. */
  datatype Profile = Profile(id: string, name: string, email: string, phone: string)

  /** The JSON payload in a token's middle segment, as far as `decodeToken` reads it. */
  datatype TokenPayload = TokenPayload(userId: Option<int>, name: string, email: string, phone: string)

  const FallbackProfile: Profile := Profile("1", "Usuario", "", "")

  /**
   * `decodeToken`, given the decoded payload (`None` when the segment is not base64 JSON).
   * A missing `user_id` makes `toString` throw, which also lands in the fallback.
   */
  function DecodeToken(payload: Option<TokenPayload>): (p: Profile)
    ensures (payload.None? || payload.value.userId.None?) ==> p == FallbackProfile
    ensures payload.Some? && payload.value.userId.Some? ==>
      && p.id == IntToString(payload.value.userId.value)
      && p.name == (if payload.value.name == "" then "Usuario" else payload.value.name)
      && p.email == payload.value.email
      && p.phone == payload.value.phone
    ensures p.name != ""
  {
    match payload
    case None => FallbackProfile
    case Some(pl) =>
      match pl.userId
      case None => FallbackProfile
      case Some(uid) => Profile(IntToString(uid), if pl.name == "" then "Usuario" else pl.name, pl.email, pl.phone)
  }

  /** A non-negative user id can be read back from the decoded profile's `id`. */
  lemma DecodedIdRoundTrip(pl: TokenPayload)
    requires pl.userId.Some? && pl.userId.value >= 0
    ensures var p := DecodeToken(Some(pl)); AllDigits(p.id) && ParseNat(p.id) == pl.userId.value
  {
    ParseNatToString(pl.userId.value);
  }

  /** `createUserFromRegistration`: the user's id, email and phone, and the name trimmed. */
  function CreateUserFromRegistration(resp: RegisterApiResponse): (p: Profile)
    ensures p.id == resp.user.id && p.email == resp.user.email && p.phone == resp.user.phone
    ensures p.name == Trim(resp.user.name)
    ensures p.name == "" <==> AllSpace(resp.user.name)
  {
    Profile(resp.user.id, Trim(resp.user.name), resp.user.email, resp.user.phone)
  }
}
