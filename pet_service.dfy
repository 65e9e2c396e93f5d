/**
 * The listing service (src/services/petService.ts): the three record mappers, the date
 * formatting of the request mapper, the response and storage handling of its two fetch paths,
 * `getPetById`'s null on error and the query parameters of `searchPets`.
 */
module PetService {
  import opened Wrappers
  import opened Text
  import opened Types
  import opened Http

  const NoDescription: string := "Sin descripción disponible"
  const Unavailable: string := "Información no disponible"

  /** `description || 'Sin descripción disponible'`. */
  function DescriptionOrPlaceholder(d: string): (r: string)
    ensures d != "" ==> r == d
    ensures d == "" ==> r == NoDescription
    ensures r != ""
  {
    if d == "" then NoDescription else d
  }

  /** `mapApiResponseToPet`: the detail body as a listing with capability flags. */
  function MapApiResponseToPet(a: PetApiResponse): (d: PetDetail)
    ensures d.pet.id == IntToString(a.petId) && d.pet.location == a.lastSeenPlace
    ensures d.pet.ownerName == a.ownerName + " " + a.ownerLastName && d.pet.ownerPhone == a.ownerPhone
    ensures d.pet.description == DescriptionOrPlaceholder(a.description)
    ensures d.pet.found == a.isFound && d.canEdit == a.canEdit && d.canDelete == a.canDelete
    ensures d.pet.name == a.name && d.pet.kind == a.kind && d.pet.breed == a.breed
    ensures d.pet.imageUrl == a.pictureUrl && d.pet.lastSeenTime == a.lastSeenTime
  {
    PetDetail(
      Pet(IntToString(a.petId), a.name, DescriptionOrPlaceholder(a.description), a.kind, a.breed,
          a.lastSeenPlace, a.ownerName + " " + a.ownerLastName, a.ownerPhone, a.pictureUrl,
          a.isFound, a.lastSeenTime),
      a.canEdit, a.canDelete)
  }

  /** `mapPetListApiResponseToPet`: a list item as a listing, without the owner's contact. */
  function MapPetListApiResponseToPet(a: PetListApiResponse): (p: Pet)
    ensures p.id == IntToString(a.id) && p.location == a.lastSeenPlace
    ensures p.ownerName == Unavailable && p.ownerPhone == Unavailable
    ensures p.description == DescriptionOrPlaceholder(a.description)
    ensures p.found == a.isFound && p.name == a.name && p.kind == a.kind && p.breed == a.breed
    ensures p.imageUrl == a.pictureUrl && p.lastSeenTime == a.lastSeenTime
  {
    Pet(IntToString(a.id), a.name, DescriptionOrPlaceholder(a.description), a.kind, a.breed,
        a.lastSeenPlace, Unavailable, Unavailable, a.pictureUrl, a.isFound, a.lastSeenTime)
  }

  /** The id of a mapped listing reads back as the API's numeric id. */
  lemma MappedIdRoundTrip(a: PetApiResponse)
    requires a.petId >= 0
    ensures var id := MapApiResponseToPet(a).pet.id; AllDigits(id) && ParseNat(id) == a.petId
  {
    ParseNatToString(a.petId);
  }

  /** Listings with different numeric ids get different string ids. */
  lemma ListIdsDistinct(a: PetListApiResponse, b: PetListApiResponse)
    requires 0 <= a.id && 0 <= b.id && a.id != b.id
    ensures MapPetListApiResponseToPet(a).id != MapPetListApiResponseToPet(b).id
  {
    if NatToString(a.id) == NatToString(b.id) {
      NatToStringInjective(a.id, b.id);
    }
  }

  /** What `Date`'s `getDate()`, `getMonth()` (0-based) and `getFullYear()` return. */
  datatype CalendarDate = CalendarDate(day: int, month: int, year: int)

  predicate ValidDate(d: CalendarDate) {
    1 <= d.day <= 31 && 0 <= d.month <= 11
  }

  function Pad2(n: int): (r: string)
  {
    PadStart(IntToString(n), 2, '0')
  }

  /**
   * The request's DD-MM-YYYY date. `None` is an invalid `Date`, whose getters give `NaN`
   * (`padStart` leaves "NaN" as it is).
   */
  function FormatDate(d: Option<CalendarDate>): (r: string)
    ensures d.None? ==> r == "NaN-NaN-NaN"
  {
    match d
    case None => "NaN-NaN-NaN"
    case Some(c) => DashJoin(Pad2(c.day), Pad2(c.month + 1), IntToString(c.year))
  }

  /** Three date fields separated by dashes. */
  function DashJoin(dd: string, mm: string, yyyy: string): string
  {
    dd + "-" + mm + "-" + yyyy
  }

  lemma {:induction false} ParseNatLeadingZero(s: string)
    requires AllDigits(s)
    ensures AllDigits("0" + s) && ParseNat("0" + s) == ParseNat(s)
    decreases |s|
  {
    if s != [] {
      var t := s[..|s| - 1];
      ParseNatLeadingZero(t);
      assert ("0" + s)[..|s|] == "0" + t;
    }
  }

  /** `s` is a field of `len` decimal digits that reads as `v`. */
  predicate ReadsAs(s: string, len: nat, v: nat)
  {
    |s| == len && AllDigits(s) && ParseNat(s) == v
  }

  /** A day or month from 1 to 99 is written as exactly two digits that read back as it. */
  lemma Pad2RoundTrip(n: nat)
    requires 1 <= n <= 99
    ensures ReadsAs(Pad2(n), 2, n)
  {
    ParseNatToString(n);
    var s := NatToString(n);
    if |s| < 2 {
      ParseNatLeadingZero(s);
      assert Pad2(n) == "0" + s;
    }
  }

  /**
   * For a valid date with a four-digit year, the string is DD-MM-YYYY: dashes at 2 and 5,
   * and the three fields read back as the day, the 1-based month and the year.
   */
  lemma FormatDateFields(c: CalendarDate)
    requires ValidDate(c) && 1000 <= c.year <= 9999
    ensures DateShape(FormatDate(Some(c)), c.day, c.month + 1, c.year)
  {
    Pad2RoundTrip(c.day);
    Pad2RoundTrip(c.month + 1);
    FourDigitYear(c.year);
    FormatDateJoins(c);
    Fields(FormatDate(Some(c)), Pad2(c.day), Pad2(c.month + 1), IntToString(c.year), c.day, c.month + 1, c.year);
  }

  lemma FourDigitYear(y: nat)
    requires 1000 <= y <= 9999
    ensures ReadsAs(IntToString(y), 4, y)
  {
    ParseNatToString(y);
    assert |NatToString(y / 100)| == |NatToString(y / 1000)| + 1 == 2;
    assert |NatToString(y / 10)| == |NatToString(y / 100)| + 1 == 3;
    assert |NatToString(y)| == |NatToString(y / 10)| + 1;
  }

  /** `r` is DD-MM-YYYY: dashes at 2 and 5, and fields that read as the day `d`, the month `m` and the year `y`. */
  predicate DateShape(r: string, d: nat, m: nat, y: nat)
  {
    && |r| == 10 && r[2] == '-' && r[5] == '-'
    && ReadsAs(r[..2], 2, d) && ReadsAs(r[3..5], 2, m) && ReadsAs(r[6..], 4, y)
  }

  lemma FormatDateJoins(c: CalendarDate)
    ensures FormatDate(Some(c)) == DashJoin(Pad2(c.day), Pad2(c.month + 1), IntToString(c.year))
  {
  }

  /** Three digit fields joined by dashes can be read back field by field. */
  lemma Fields(r: string, dd: string, mm: string, yyyy: string, d: nat, m: nat, y: nat)
    requires r == DashJoin(dd, mm, yyyy)
    requires ReadsAs(dd, 2, d) && ReadsAs(mm, 2, m) && ReadsAs(yyyy, 4, y)
    ensures DateShape(r, d, m, y)
  {
    assert r[..2] == dd && r[3..5] == mm && r[6..] == yyyy;
  }

  /** `mapPetToApiRequest`, given what `new Date(last_seen_time)` reads as. */
  function MapPetToApiRequest(form: PetForm, date: Option<CalendarDate>): (req: CreatePetApiRequest)
    ensures req.lastSeenTime == FormatDate(date)
    ensures req.name == form.name && req.description == form.description && req.kind == form.kind
    ensures req.breed == form.breed && req.lastSeenProvince == form.lastSeenProvince
    ensures req.lastSeenCity == form.lastSeenCity && req.pictureUrl == form.imageUrl
  {
    CreatePetApiRequest(form.name, form.description, form.kind, form.breed, FormatDate(date),
                        form.lastSeenProvince, form.lastSeenCity, form.imageUrl)
  }

  /**
   * `fetchFromAPI`: nothing is sent without a stored token; a 401 forgets both stored keys;
   * other failures throw; a 204 gives `null` (`None`) and any other ok response its body.
   */
  function FetchFromApi<B>(storage: Storage, resp: Response<B>): (c: Call<Option<B>>)
    ensures !HasToken(storage) ==> c == Call(storage, None, Failure(NoToken))
    ensures HasToken(storage) ==> c.sent == Some(CreateAuthHeaders(storage))
    ensures HasToken(storage) && resp.Ok? ==> c.result == Success(Some(resp.body)) && c.storage == storage
    ensures HasToken(storage) && resp.NoContent? ==> c.result == Success(None) && c.storage == storage
    ensures HasToken(storage) && resp == Status(401) ==>
      c.result == Failure(SessionExpired) && c.storage == storage - {AuthTokenKey, AuthUserKey}
    ensures HasToken(storage) && resp.Status? && resp.code != 401 ==>
      c.result == Failure(HttpError(resp.code)) && c.storage == storage
  {
    if !HasToken(storage) then Call(storage, None, Failure(NoToken))
    else
      var headers := Some(CreateAuthHeaders(storage));
      match resp
      case Ok(body) => Call(storage, headers, Success(Some(body)))
      case NoContent => Call(storage, headers, Success(None))
      case Status(code) =>
        if code == 401 then Call(storage - {AuthTokenKey, AuthUserKey}, headers, Failure(SessionExpired))
        else Call(storage, headers, Failure(HttpError(code)))
  }

  /** Without a token the outcome does not depend on any response: no request was made. */
  lemma NoTokenNoRequest<B>(storage: Storage, r1: Response<B>, r2: Response<B>)
    requires !HasToken(storage)
    ensures FetchFromApi(storage, r1) == FetchFromApi(storage, r2)
    ensures FetchFromApi(storage, r1).sent.None?
  {
  }

  /** After a 401 the session is gone from storage: the next call throws before sending. */
  lemma SessionExpiryIsSticky<B, C>(storage: Storage, next: Response<C>)
    requires HasToken(storage)
    ensures var after := FetchFromApi<B>(storage, Status(401)).storage;
      AuthTokenKey !in after && AuthUserKey !in after
      && FetchFromApi(after, next) == Call(after, None, Failure(NoToken))
  {
  }

  /** `getAllPets`: the mapped list; a 204's `null` body makes `.data` throw. */
  function GetAllPets(storage: Storage, resp: Response<PaginatedApiResponse>): (c: Call<seq<Pet>>)
    ensures var f := FetchFromApi(storage, resp); c.storage == f.storage && c.sent == f.sent
    ensures c.result.Success? <==> HasToken(storage) && resp.Ok?
    ensures c.result.Success? ==>
      |c.result.value| == |resp.body.data|
      && forall i :: 0 <= i < |resp.body.data| ==> c.result.value[i] == MapPetListApiResponseToPet(resp.body.data[i])
  {
    var f := FetchFromApi(storage, resp);
    match f.result
    case Failure(e) => Call(f.storage, f.sent, Failure(e))
    case Success(None) => Call(f.storage, f.sent, Failure(BadBody))
    case Success(Some(body)) =>
      Call(f.storage, f.sent, Success(seq(|body.data|, i requires 0 <= i < |body.data| => MapPetListApiResponseToPet(body.data[i]))))
  }

  /** `getPetById`: the mapped listing, or `None` for any error (the storage effects remain). */
  function GetPetById(storage: Storage, resp: Response<PetApiResponse>): (c: Call<Option<PetDetail>>)
    ensures c.result.Success?
    ensures var f := FetchFromApi(storage, resp); c.storage == f.storage && c.sent == f.sent
    ensures c.result.value.Some? <==> HasToken(storage) && resp.Ok?
    ensures c.result.value.Some? ==> c.result.value.value == MapApiResponseToPet(resp.body)
  {
    var f := FetchFromApi(storage, resp);
    match f.result
    case Success(Some(body)) => Call(f.storage, f.sent, Success(Some(MapApiResponseToPet(body))))
    case _ => Call(f.storage, f.sent, Success(None))
  }

  /**
   * `createPetWithImage`: the same token check as `fetchFromAPI`, but with only the
   * authorization header, and the body is always parsed, so a 204 throws.
   */
  function CreatePetWithImage<B>(storage: Storage, resp: Response<B>): (c: Call<B>)
    ensures !HasToken(storage) ==> c == Call(storage, None, Failure(NoToken))
    ensures HasToken(storage) ==> c.sent == Some([("Authorization", "Bearer " + storage[AuthTokenKey])])
    ensures c.result.Success? <==> HasToken(storage) && resp.Ok?
    ensures c.result.Success? ==> c.result.value == resp.body
    ensures HasToken(storage) && resp == Status(401) ==>
      c.result == Failure(SessionExpired) && c.storage == storage - {AuthTokenKey, AuthUserKey}
    ensures !(HasToken(storage) && resp == Status(401)) ==> c.storage == storage
  {
    if !HasToken(storage) then Call(storage, None, Failure(NoToken))
    else
      var headers := Some([("Authorization", "Bearer " + storage[AuthTokenKey])]);
      match resp
      case Ok(body) => Call(storage, headers, Success(body))
      case NoContent => Call(storage, headers, Failure(BadBody))
      case Status(code) =>
        if code == 401 then Call(storage - {AuthTokenKey, AuthUserKey}, headers, Failure(SessionExpired))
        else Call(storage, headers, Failure(HttpError(code)))
  }

  /** The filters `searchPets` accepts; "" is an unset key. */
  datatype SearchFilters = SearchFilters(kind: string, breed: string, city: string, searchTerm: string)

  /** The query parameters of `searchPets`: each set filter, in the order type, breed, city, search. */
  function SearchParams(f: SearchFilters): (params: seq<(string, string)>)
    ensures forall i :: 0 <= i < |params| ==> params[i].1 != ""
    ensures forall i :: 0 <= i < |params| ==>
      params[i] in [("type", f.kind), ("breed", f.breed), ("city", f.city), ("search", f.searchTerm)]
    ensures ("type", f.kind) in params <==> f.kind != ""
    ensures ("breed", f.breed) in params <==> f.breed != ""
    ensures ("city", f.city) in params <==> f.city != ""
    ensures ("search", f.searchTerm) in params <==> f.searchTerm != ""
  {
    var p0: seq<(string, string)> := [];
    var p1 := if f.kind != "" then p0 + [("type", f.kind)] else p0;
    var p2 := if f.breed != "" then p1 + [("breed", f.breed)] else p1;
    var p3 := if f.city != "" then p2 + [("city", f.city)] else p2;
    if f.searchTerm != "" then p3 + [("search", f.searchTerm)] else p3
  }

  /** `searchPets` appends the parameters in the fixed order type, breed, city, search. */
  lemma SearchParamsOrdered(f: SearchFilters)
    ensures var params := SearchParams(f);
      forall i, j :: 0 <= i < j < |params| ==> ParamRank(params[i].0) < ParamRank(params[j].0)
  {
  }

  /** The position of a parameter name in the order `searchPets` appends them. */
  function ParamRank(name: string): nat
  {
    if name == "type" then 0 else if name == "breed" then 1 else if name == "city" then 2 else 3
  }

  /** `searchPets`: the query it sends, and the answer handled as `getAllPets` handles it. */
  function SearchPets(storage: Storage, f: SearchFilters, resp: Response<PaginatedApiResponse>): (r: (seq<(string, string)>, Call<seq<Pet>>))
    ensures r.0 == SearchParams(f) && r.1 == GetAllPets(storage, resp)
  {
    (SearchParams(f), GetAllPets(storage, resp))
  }
}
