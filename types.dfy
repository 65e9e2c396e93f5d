/**
 * The record shapes the application passes around (src/types/index.ts). TypeScript's
 * `type` field is called `kind` here, `type` being a Dafny keyword; `Date` fields are
 * not modelled. Optional string fields read with JavaScript truthiness use "" for absent.
 */
module Types {
  import opened Wrappers

  /** A listing as the catalog and the cards show it. */
  datatype Pet = Pet(
    id: string,
    name: string,
    description: string,
    kind: string,
    breed: string,
    location: string,
    ownerName: string,
    ownerPhone: string,
    imageUrl: string,
    found: bool,
    lastSeenTime: string)

  /** A listing as the detail page shows it: the listing plus the viewer's capability flags. */
  datatype PetDetail = PetDetail(pet: Pet, canEdit: bool, canDelete: bool)

  datatype User = User(id: string, email: string, password: string, name: string, phone: string)

  /** The body `GET /pets/{id}` returns. */
  datatype PetApiResponse = PetApiResponse(
    petId: int,
    ownerId: int,
    ownerName: string,
    ownerLastName: string,
    ownerEmail: string,
    ownerPhone: string,
    name: string,
    kind: string,
    breed: string,
    lastSeenTime: string,
    lastSeenPlace: string,
    pictureUrl: string,
    isFound: bool,
    description: string,
    canEdit: bool,
    canDelete: bool)

  /** One item of the list `GET /pets/` returns. */
  datatype PetListApiResponse = PetListApiResponse(
    id: int,
    name: string,
    description: string,
    kind: string,
    breed: string,
    userId: int,
    lastSeenTime: string,
    lastSeenPlace: string,
    isFound: bool,
    pictureUrl: string,
    createdAt: string,
    updatedAt: string)

  datatype PaginatedApiResponse = PaginatedApiResponse(
    data: seq<PetListApiResponse>,
    total: int,
    page: int,
    size: int,
    totalPages: int,
    hasNext: bool,
    hasPrev: bool)

  /** The body sent to create or update a listing; `pictureUrl` is absent when the form had none. */
  datatype CreatePetApiRequest = CreatePetApiRequest(
    name: string,
    description: string,
    kind: string,
    breed: string,
    lastSeenTime: string,
    lastSeenProvince: string,
    lastSeenCity: string,
    pictureUrl: Option<string>)

  /** The body `POST /auth/login` returns; the code also reads a `status` field from it. */
  datatype LoginApiResponse = LoginApiResponse(token: string, status: Option<int>)

  /** The body `POST /users/` returns; the code also reads a `status` field from it. */
  datatype RegisterApiResponse = RegisterApiResponse(authToken: string, message: string, user: User, status: Option<int>)

  datatype RegisterApiRequest = RegisterApiRequest(
    name: string,
    lastName: string,
    email: string,
    password: string,
    confirmPassword: string,
    phone: string)

  datatype LoginForm = LoginForm(email: string, password: string)

  datatype RegisterForm = RegisterForm(name: string, email: string, password: string, confirmPassword: string, phone: string)

  /** The publish form; `imageUrl` and `found` are optional in the source. */
  datatype PetForm = PetForm(
    name: string,
    description: string,
    kind: string,
    breed: string,
    lastSeenTime: string,
    lastSeenProvince: string,
    lastSeenCity: string,
    imageUrl: Option<string>,
    found: Option<bool>)

  /** The catalog's filter selection; "" stands for a key that is unset. */
  datatype FilterOptions = FilterOptions(kind: string, breed: string, city: string)
}
