# react-find-my-friend, modelled in Dafny

This is a Dafny model of the browser front end of *react-find-my-friend*. The app lists lost
pets. A visitor can browse the catalog with its filters and pager, sign in or register,
publish a lost pet, and edit, delete or mark their own listings as found. The model covers the
logic of that front end and leaves out its presentation:

- the session store and the two access guards;
- the two route tables of the application shell;
- the two service objects that talk to the REST API;
- the form rules and state changes of each page;
- the constant tables of breeds, provinces and cities.

There is one Dafny module per source file. Shared vocabulary lives in four modules:

- `Wrappers`: `Option` and `Result`.
- `Text`: ASCII whitespace and digits, `length` in UTF-16 code units, `trim`, `includes`, `split`/`join`, `padStart`, number to string, and digit stripping.
- `Types`: the records of `src/types/index.ts`.
- `Http`: the answer of the server, the error a call throws, localStorage, and headers.

Some conventions hold throughout:

- **The server's answer is an input.** A response is a datatype value:
  `Ok(body)`, `NoContent` (a 204) or `Status(code)` (a status outside 200-299, whose `ok` flag is false). A service
  call is a function that takes the response and the current localStorage (a
  `map<string, string>`). It returns the storage after the call, the headers it sent (`None`
  when it threw before sending), and its result or the error it throws.
- **Pages with state are classes.** A page's fields are the page's `useState` variables.
  Each handler is a method that modifies only the fields the source sets. Each handler takes
  the server's answer as a parameter and records a navigation as the target path.
- **JavaScript truthiness is written out.** The empty string counts as absent. An unset
  optional filter is `""`. A missing JSON key in a request is `None`.
- **Regular expressions are explicit.** The email pattern `\S+@\S+\.\S+` and the phone
  pattern `^\+?[\d\s\-\(\)]+$` are predicates over ASCII characters. So is `trim`.
- **Lengths are UTF-16 code units.** The minimum lengths of the password, the name and the
  description use `Text.Utf16Length`, which counts a character outside the Basic Multilingual
  Plane twice, as JavaScript's `length` does.

The model follows the code where the code differs from the app's evident design:

- The session store does not read the saved token on start-up.
- Sign-out keeps the user and its stored copy.
- The auth service's 401 removes only `authToken`. The pet service's 401 also removes `authUser`.
- "Limpiar filtros" does not reset the page.
- The session store keeps the token of any successful sign-in answer, whatever its `status`.
  The service writes it to storage only when `status` is 200.
- The public-route redirect always goes to `/`.
- Saving an edited listing sends the request `updatePet` builds as written, without the
  chosen location and with an invalid date (`EditPet.UpdateRequestAsWritten`).
- The "Tasa de Éxito" counter shows the found count (`MyPets.SuccessRateAsWritten`).
- Both route trees are mounted on every screen, so a guest on a narrow screen is redirected
  by the wide tree's guards (`App.Mounted`).

Four places where the code evidently does not do what it means are listed under "Findings".

## Model

| member | source | states |
|---|---|---|
| App.FirstMatch | src/App.tsx:33-73 | the first route at or after `k` whose pattern matches the path, none before it matching; `None` exactly when no route from `k` on matches |
| App.Resolve | src/App.tsx:33-109 | nothing is shown exactly when no route matches; whatever is shown is the page of a matching route |
| App.DesktopAllGuarded | src/App.tsx:36-72 | every wide-screen route is wrapped in a guard: the auth pages public-only with `/` as target, the other five protected |
| App.DesktopPagesMatchAuthentication | src/App.tsx:36-72 | on a wide screen a guest can only reach the login and registration pages, and a signed-in visitor never sees them |
| App.MobileHidesAuthPagesWhenSignedIn | src/App.tsx:82-91 | on a narrow screen a signed-in visitor is never shown the login or registration page |
| App.MobileBrowsingIsPublic | src/App.tsx:78-79 | the narrow-screen table routed on its own shows `/` and `/pet/:id` to everyone (the shell as written does not: see `App.Mounted`) |
| App.Mounted | src/App.tsx:32-110 | both trees are mounted whatever the width: a redirect happens exactly when either table redirects; otherwise the visible table's screen is shown |
| App.MountedGuestCannotBrowse | src/App.tsx:32-79 | as written, a guest on a narrow screen asking for `/` is sent to `/login`, though the narrow table alone shows the catalog |
| App.MountedAgreesElsewhere | src/App.tsx:32-110 | for a signed-in visitor, or any path but `/` and `/pet/:id`, the mounted shell shows what the visible table alone shows |
| App.DesktopHomeNeedsLogin | src/App.tsx:48-52 | on a wide screen a guest asking for `/` is redirected to `/login`, replacing history and remembering `/` |
| App.TablesDifferOnlyOnBrowsing | src/App.tsx:36-108 | for every path other than `/` and `/pet/:id` both tables lead to the same screen |
| App.SharedTail | src/App.tsx:58-108 | from the publish route on, the two tables are identical and pick the same route |
| App.SamePaths | src/App.tsx:36-108 | both tables declare the same seven (path, page) pairs |
| AuthContext.UseAuth | src/contexts/AuthContext.tsx:25-31 | the context value inside a provider; outside one, the error with its message |
| AuthContext.AuthProvider.constructor | src/contexts/AuthContext.tsx:37-40 | token and user are null and loading is on, whatever storage holds; nobody is signed in |
| AuthContext.AuthProvider.Login | src/contexts/AuthContext.tsx:41-55 | the service's result is passed on; on success the token is the body's and is stored under `authToken`; on failure the token is kept and only the service's storage effects remain; the user never changes; loading ends either way |
| AuthContext.AuthProvider.Register | src/contexts/AuthContext.tsx:57-77 | the form is sent as `AuthService.ToRegisterRequest` of it; on success token and user come from the body and both are stored; on failure token and user are kept; loading ends either way |
| AuthContext.AuthProvider.Logout | src/contexts/AuthContext.tsx:79-82 | the token is gone and nobody is signed in; only `authToken` leaves storage; the user and `authUser` stay |
| AuthContext.AuthProvider.ServiceWroteStorage | src/services/petService.ts:97-104 | a service's write to localStorage replaces the provider's storage and nothing else |
| AuthContext.SignInAuthenticates | src/contexts/AuthContext.tsx:41-55 | a successful sign-in with a non-empty token signs the visitor in and stores the token |
| AuthContext.LogoutKeepsRegisteredUser | src/contexts/AuthContext.tsx:79-82 | after registering and signing out, nobody is signed in, but the user and its stored copy remain |
| AuthContext.ExpiredSessionStillAuthenticated | src/contexts/AuthContext.tsx:84-86 | after a pet-service 401 the context still reports a session, while every later pet request fails for lack of a token |
| ProtectedRoute.Decide | src/components/ProtectedRoute.tsx:11-29 | children render exactly when `requireAuth` equals the session state; a guest on a protected route goes to `redirectTo` carrying its location; a signed-in visitor on a public route goes to `/` |
| ProtectedRoute.DefaultsProtect | src/components/ProtectedRoute.tsx:11-22 | with the default props a guest is sent to `/login` and a signed-in visitor sees the page |
| ProtectedRoute.PublicRouteIgnoresRedirectTo | src/components/ProtectedRoute.tsx:25-27 | on a public route the outcome does not depend on `redirectTo` |
| ProtectedRoute.RedirectsReplace | src/components/ProtectedRoute.tsx:20-27 | every redirect replaces the history entry, and only the guest redirect carries the origin |
| ProtectedComponent.AgreesWithRouteGuard | src/components/ProtectedComponent.tsx:15-22 | the inline guard shows its children exactly when the route guard with the same setting renders them |
| ProtectedComponent.ExactlyOneVariant | src/components/ProtectedComponent.tsx:15-21 | for any visitor exactly one of a protected and a public block is shown |
| Http.ErrorMessage | src/services/petService.ts:86-103 | every error the services throw has a message, except a body the JSON parser rejects |
| Http.CreateAuthHeaders | src/services/authService.ts:9-20 | a JSON content type, plus `Bearer <token>` exactly when a non-empty token is stored |
| Http.CreatePublicHeaders | src/services/authService.ts:22-26 | only the JSON content type, never an authorization |
| Http.GetAuthToken | src/services/petService.ts:6-8 | the stored token exactly when `authToken` is a key; a non-empty one exactly when a token counts as present |
| AuthService.FetchFromApi | src/services/authService.ts:29-52 | the headers follow `requireAuth`; only an OK answer succeeds, with its body; a 401 removes `authToken` and throws session-expired; other statuses throw naming the status; a 204 makes the JSON read throw |
| AuthService.FetchKeepsOtherKeys | src/services/authService.ts:40-46 | no call touches any storage key but `authToken` |
| AuthService.Login | src/services/authService.ts:54-65 | a public call whose result is the fetch's; the token is stored exactly when the body's `status` is 200 |
| AuthService.SplitName | src/services/authService.ts:76-77 | with a space, first name and rest rejoin to the name and the first name has no space; without one, the whole name and `""` |
| AuthService.SplitAtFirst | src/services/authService.ts:76-77 | `split(' ')` then head, space and rejoined tail rebuild the name, and the head has no space |
| AuthService.ToRegisterRequest | src/services/authService.ts:75-82 | the request holds the split name and the other four fields verbatim |
| AuthService.RegisterRequestRejoinsName | src/services/authService.ts:75-77 | for a name with a space, `name + " " + last_name` is the name typed |
| AuthService.Register | src/services/authService.ts:84-91 | a public call whose result is the fetch's; `auth_token` is stored exactly when the body's `status` is 200 |
| AuthService.DecodeToken | src/services/authService.ts:94-119 | an undecodable payload, or one without a user id, gives the fallback profile; otherwise the id's string, the name or `Usuario`, and the email and phone; the name is never empty |
| AuthService.DecodedIdRoundTrip | src/services/authService.ts:104 | a non-negative user id is all digits in the profile and reads back as the id |
| AuthService.CreateUserFromRegistration | src/services/authService.ts:121-135 | id, email and phone copied, the name trimmed; the name is empty exactly when the one sent was all whitespace |
| PetService.DescriptionOrPlaceholder | src/services/petService.ts:29 | a non-empty description is kept, an empty one replaced by the placeholder; the result is never empty |
| PetService.MapApiResponseToPet | src/services/petService.ts:25-42 | every field of the detail body lands in its listing field; the owner is first and last name joined by a space; the capability flags are copied independently |
| PetService.MapPetListApiResponseToPet | src/services/petService.ts:45-60 | the list item's fields land in the listing; owner name and phone are the "not available" placeholder |
| PetService.MappedIdRoundTrip | src/services/petService.ts:27 | a mapped id is all digits and reads back as the API's numeric id |
| PetService.ListIdsDistinct | src/services/petService.ts:47 | different numeric ids give different string ids |
| PetService.FormatDate | src/services/petService.ts:65-66 | a date `Date` cannot read prints as `NaN-NaN-NaN` |
| PetService.Pad2RoundTrip | src/services/petService.ts:66 | a day or month from 1 to 99 is written as exactly two digits that read back as it |
| PetService.FormatDateFields | src/services/petService.ts:64-66 | a valid date with a four-digit year is written `DD-MM-YYYY`, with dashes at 2 and 5 and fields that read back as day, 1-based month and year |
| PetService.FourDigitYear | src/services/petService.ts:66 | a year from 1000 to 9999 is four digits that read back as it |
| PetService.MapPetToApiRequest | src/services/petService.ts:63-78 | the date formatted as above and every other field copied to its request key |
| PetService.FetchFromApi | src/services/petService.ts:80-114 | without a token it throws before sending; otherwise bearer headers; OK gives the body, 204 gives null; a 401 removes both keys and throws session-expired; other statuses throw naming the status |
| PetService.NoTokenNoRequest | src/services/petService.ts:84-87 | without a token the outcome is the same whatever the server would answer, and nothing is sent |
| PetService.SessionExpiryIsSticky | src/services/petService.ts:97-102 | after a 401 the next call throws for lack of a token without sending |
| PetService.GetAllPets | src/services/petService.ts:116-120 | succeeds exactly with a token and an OK answer, giving the mapped list in order; storage effects are the fetch's |
| PetService.GetPetById | src/services/petService.ts:122-131 | never throws; a listing exactly with a token and an OK answer, the mapped body; null otherwise, keeping the fetch's storage effects |
| PetService.CreatePetWithImage | src/services/petService.ts:142-168 | without a token it throws before sending; only the bearer header is sent; success exactly on OK, with the body; a 401 removes both keys; storage is otherwise unchanged |
| PetService.SearchParams | src/services/petService.ts:177-181 | every parameter is one of the four filters under its own name with a non-empty value, and each filter is present exactly when it is set |
| PetService.SearchParamsOrdered | src/services/petService.ts:177-181 | the parameters come in the order type, breed, city, search |
| PetService.SearchPets | src/services/petService.ts:170-186 | the query sent is `SearchParams` of the filters, and the answer is handled exactly as `getAllPets` handles its own |
| Home.UpdateFilters | src/pages/Home.tsx:47-53 | a new type also clears the breed, even when the new type is empty; breed and city change only their own key |
| Home.UpdateKeepsBreedNeedsKind | src/pages/Home.tsx:47-53 | with the breed select disabled without a type, no change leaves a breed without a type |
| Home.Select | src/pages/Home.tsx:59-73 | the matching listings, never more than the list |
| Home.SelectMembers | src/pages/Home.tsx:61-71 | a listing is kept exactly when it is in the list and passes every set filter |
| Home.SelectConcat | src/pages/Home.tsx:58-73 | filtering works piecewise over concatenation, so the kept listings keep their order |
| Home.SelectNoFilters | src/pages/Home.tsx:59-73 | with no filter set, every listing is kept |
| Home.Keep | src/pages/Home.tsx:62-70 | one `filter` step never lengthens the list |
| Home.KeepSelect | src/pages/Home.tsx:61-71 | narrowing the selection for `f` by one more criterion gives the selection for `f` with that criterion added |
| Home.KeepConcat | src/pages/Home.tsx:62-70 | a single `filter` step works piecewise over concatenation |
| Home.AvailableBreeds | src/pages/Home.tsx:77-82 | none without a type, else the table's breeds for the type or none |
| Home.AvailableBreedsByKind | src/pages/Home.tsx:77-82 | the ten, ten and seven breeds of the three kinds, none for any other type |
| Home.SliceIndex | src/pages/Home.tsx:169 | a `slice` bound always lands within the list |
| Home.JsSlice | src/pages/Home.tsx:169 | a contiguous run of the list starting at the clamped start, never longer than `end - start` |
| Home.VisiblePets | src/pages/Home.tsx:169 | at most nine listings, each of them from the list |
| Home.VisibleWindow | src/pages/Home.tsx:168-180 | on a page within range, the visible listings are the nine-listing window of that page, clipped to the list |
| Home.PageBoundaries | src/pages/Home.tsx:176-180 | nine listings make one page and no pager; ten make two pages and the second holds the tenth |
| Home.TotalPages | src/pages/Home.tsx:176-180 | no pages exactly for no listings, and a rendered pager exactly for more than nine listings |
| Home.TypeFilterSelectsKind | src/pages/Home.tsx:61-63 | choosing `gato` keeps exactly the cats, in order |
| Home.CityIsSubstring | src/pages/Home.tsx:69-71 | the city filter is a substring test: `Plata` matches `Buenos Aires, La Plata` |
| Home.Catalog.constructor | src/pages/Home.tsx:20-27 | nothing loaded, no filters, page 1, loading |
| Home.Catalog.LoadPets | src/pages/Home.tsx:29-45 | a fetched list becomes both the full and the filtered list; a failure only sets the message; loading ends |
| Home.Catalog.ApplyFilters | src/pages/Home.tsx:58-75 | the step-by-step narrowing of the full list equals `Select` of the full list and the filters, and the page goes to 1 |
| Home.Catalog.HandleFilterChange | src/pages/Home.tsx:47-56 | the filters are updated, the filtered list is the selection for them from the full list, and the page goes to 1 |
| Home.Catalog.ClearFilters | src/pages/Home.tsx:153-156 | no filters and the full list; the page and the full list are untouched, so a second call changes nothing |
| Home.Catalog.SetCurrentPage | src/pages/Home.tsx:181 | the page becomes the one asked for |
| Home.Catalog.Visible | src/pages/Home.tsx:168-175 | the current page's listings: at most nine, each of them passing the filters |
| Home.Catalog.PagerMounted | src/pages/Home.tsx:176-185 | when the pager is not mounted (no listing passes) it would render nothing anyway |
| Pagination.Pages | src/components/Pagination.tsx:28-30 | the run of page numbers `lo..hi`, empty when `hi < lo` |
| Pagination.Strip | src/components/Pagination.tsx:22-60 | the strip `getPageNumbers` builds: at most seven buttons, from page 1 to the last page when there is one |
| Pagination.PushPages | src/components/Pagination.tsx:28-30 | the `push` loop appends exactly the run `lo..hi` |
| Pagination.GetPageNumbers | src/components/Pagination.tsx:22-60 | the loops build exactly the strip of the four cases |
| Pagination.StripShape | src/components/Pagination.tsx:22-60 | for a page within range the strip starts at 1, ends at the last page, contains the current page, increases, skips pages only under an ellipsis, and has at most seven buttons |
| Pagination.StripOrdered | src/components/Pagination.tsx:22-60 | increasing numbers, with a gap only where an ellipsis sits |
| Pagination.FirstPagesOrdered | src/components/Pagination.tsx:26-30 | the five-or-fewer-pages strip is ordered |
| Pagination.HeadOrdered | src/components/Pagination.tsx:33-39 | the near-the-start strip is ordered |
| Pagination.TailOrdered | src/components/Pagination.tsx:40-46 | the near-the-end strip is ordered |
| Pagination.MiddleOrdered | src/components/Pagination.tsx:47-56 | the middle strip is ordered |
| Pagination.MiddleStrip | src/components/Pagination.tsx:47-56 | the middle strip is first page, ellipsis, the three pages around the current one, ellipsis, last page |
| Pagination.NoSilentGaps | src/components/Pagination.tsx:22-60 | two adjacent page-number buttons are consecutive pages |
| Pagination.StripExamples | src/components/Pagination.tsx:26-56 | the strips for 3 of 5, 1 of 10, 10 of 10 and 5 of 10 |
| Pagination.ItemRange | src/components/Pagination.tsx:19-20 | on a page within range the shown range is non-empty, at most a page long, and within the items |
| Pagination.StartItem | src/components/Pagination.tsx:19 | the first item of a page follows exactly `currentPage - 1` full pages |
| Pagination.EndItem | src/components/Pagination.tsx:20 | the smaller of the page's end and the item count |
| Pagination.PageCount | src/pages/Home.tsx:178 | the fewest pages that hold every item: none for no items |
| Pagination.Rendered | src/components/Pagination.tsx:62-64 | the pager renders exactly when its strip would hold more than one button |
| Pagination.ItemClick | src/components/Pagination.tsx:84-85 | an ellipsis calls nothing; a number asks for that page |
| Pagination.PrevClick | src/components/Pagination.tsx:74-77 | disabled exactly on page 1, otherwise asks for the previous page |
| Pagination.NextClick | src/components/Pagination.tsx:93-96 | disabled exactly on the last page, otherwise asks for the next page |
| Pagination.ClicksStayInRange | src/components/Pagination.tsx:74-96 | from a page within range every enabled button asks for a page within range |
| Login.EmailError | src/pages/Login.tsx:37-41 | no message exactly for a non-empty email containing the pattern; the required message for an empty one |
| Login.PasswordError | src/pages/Login.tsx:43-47 | no message exactly for six UTF-16 code units or more; required wins over too short |
| Login.PasswordCountsCodeUnits | src/pages/Login.tsx:45 | three characters outside the Basic Multilingual Plane pass the six-unit minimum; three ASCII letters do not |
| Login.ValidLoginForm | src/pages/Login.tsx:34-50 | the form is valid exactly when the email contains the pattern and the password has six code units |
| Login.ValidateLogin | src/pages/Login.tsx:34-50 | the email message is empty exactly for a non-empty email matching the pattern, and the password message exactly for six code units or more |
| Login.EmailExamples | src/pages/Login.tsx:39 | an address is accepted, with or without text around it; no dot after the `@`, or nothing before it, is refused |
| Login.EmailShape | src/pages/Login.tsx:39 | an accepted email has at least five characters, an `@` and a `.` |
| Login.AfterLoginTarget | src/pages/Login.tsx:67 | the remembered origin when there is one, else a non-empty default |
| Login.ReturnsToProtectedPage | src/pages/Login.tsx:64-68 | a guest turned away from a protected page returns to it after signing in |
| Login.LoginPage.constructor | src/pages/Login.tsx:11-17 | empty fields, no messages, not submitting |
| Login.LoginPage.HandleInputChange | src/pages/Login.tsx:19-32 | only the named field changes and only its message is cleared |
| Login.LoginPage.HandleSubmit | src/pages/Login.tsx:53-74 | the messages are the form's; an invalid form clears the failure message and leaves the session store untouched; success goes to the origin and the store holds the answer's token, also under `authToken`; failure shows the fixed message and keeps the token; the user is kept; submitting ends |
| Register.NameError | src/pages/Register.tsx:39-43 | no message exactly when the trimmed name has two UTF-16 code units; required exactly when it is all whitespace |
| Register.ConfirmError | src/pages/Register.tsx:57-61 | no message exactly for a non-empty confirmation equal to the password |
| Register.PhoneError | src/pages/Register.tsx:63-67 | no message exactly when the phone matches the pattern; required for an empty one |
| Register.PhonesAccepted | src/pages/Register.tsx:65 | international and local numbers pass, and so does punctuation with no digit at all |
| Register.PhonesRejected | src/pages/Register.tsx:65 | a bare `+`, a `+` past the start and letters are refused |
| Register.PhoneDigitsOnlyFromClass | src/pages/Register.tsx:65 | every character of an accepted phone is in the class, except a leading `+` |
| Register.ValidRegisterForm | src/pages/Register.tsx:36-71 | the form is valid exactly when all five rules accept it; the email and password rules (lines 45-55) are the sign-in page's |
| Register.ValidateRegister | src/pages/Register.tsx:36-71 | each of the five messages is empty exactly when its own field passes its rule |
| Register.RegisterPage.constructor | src/pages/Register.tsx:10-19 | empty fields, no messages, not submitting |
| Register.RegisterPage.HandleInputChange | src/pages/Register.tsx:21-34 | only the named field changes and only its message is cleared |
| Register.RegisterPage.HandleSubmit | src/pages/Register.tsx:73-91 | the messages are the form's; an invalid form leaves the session store untouched; a valid one registers: success goes to `/` with the answer's token and user set and both stored, failure shows the fixed message and keeps token and user with only the service's storage effects; loading ends |
| Register.RegisterPage.Send | src/pages/Register.tsx:81-90 | the context's register runs; success goes to `/` with token and user from the answer, stored under `authToken` and `authUser`; failure shows the message, keeps token and user, and leaves only the service's storage effects; loading ends |
| PetFormPage.BlankIsEmptyTrim | src/pages/PetForm.tsx:95 | `!s.trim()` holds exactly when the trimmed text is empty |
| PetFormPage.DescriptionError | src/pages/PetForm.tsx:99-103 | no message exactly for ten UTF-16 code units after trimming; required exactly for all whitespace |
| PetFormPage.ValidatePetForm | src/pages/PetForm.tsx:92-125 | validation drops any earlier picture message |
| PetFormPage.ValidPetForm | src/pages/PetForm.tsx:92-124 | no message exactly when every required field is non-blank and the trimmed description has ten code units |
| PetFormPage.InitialFormInvalid | src/pages/PetForm.tsx:10-19 | the starting form is refused for lack of a name |
| PetFormPage.BreedOptions | src/pages/PetForm.tsx:229 | none for an empty kind, else the table's breeds for it or none |
| PetFormPage.CityOptions | src/pages/PetForm.tsx:267-272 | none without a province, else the table's cities for it or none |
| PetFormPage.CityOptionsExamples | src/pages/PetForm.tsx:267-272 | a listed province offers its five cities; an unlisted one offers none |
| PetFormPage.FileError | src/pages/PetForm.tsx:62-81 | no message exactly for an `image/` type of at most 5 MiB |
| PetFormPage.Payload | src/pages/PetForm.tsx:139-150 | the seven text fields in order, then the picture exactly when one was picked |
| PetFormPage.PayloadReadsBack | src/pages/PetForm.tsx:139-150 | each field reads back from the body by its name, and `picture` is present exactly when a file was picked |
| PetFormPage.PetFormPage.constructor | src/pages/PetForm.tsx:10-34 | the starting form, kind `perro`, no file, no province, no messages |
| PetFormPage.PetFormPage.HandleInputChange | src/pages/PetForm.tsx:36-49 | only the named field changes and only its message is cleared; a new kind keeps the breed |
| PetFormPage.PetFormPage.HandleProvinceChange | src/pages/PetForm.tsx:51-60 | the province is set in the form and the selection, and the city is cleared |
| PetFormPage.PetFormPage.HandleFileChange | src/pages/PetForm.tsx:62-90 | no file changes nothing; a refused file sets the picture message and keeps the old file; an accepted one is kept with its preview and clears the message |
| PetFormPage.PetFormPage.HandleSubmit | src/pages/PetForm.tsx:127-163 | the messages are the form's; an invalid form builds no body and calls nothing; a valid one sends `Payload`, then goes to the catalog `/` or shows the failure message; the earlier failure message is cleared first |
| EditPet.FormFromPet | src/pages/EditPet.tsx:46-56 | every listing field lands in its form field |
| EditPet.SplitLocation | src/pages/EditPet.tsx:58-62 | a province and a city exactly when the location contains `, ` |
| EditPet.ComposeLocation | src/pages/EditPet.tsx:100-102 | `province, city` when both are chosen, else the stored location |
| EditPet.LocationRoundTrip | src/pages/EditPet.tsx:58-102 | a composed location splits back into the province and city chosen |
| EditPet.SplitDropsExtraParts | src/pages/EditPet.tsx:58-62 | parts after the second are dropped |
| EditPet.IncompleteSelectionKeepsLocation | src/pages/EditPet.tsx:100-102 | without both choices the stored location is kept |
| EditPet.ApplyChange | src/pages/EditPet.tsx:72-78 | the checkbox sets `found` from its checked state; a text input sets only its named field |
| EditPet.KindChangeKeepsBreed | src/pages/EditPet.tsx:72-78 | changing the type keeps the breed |
| EditPet.UpdateRequestAsWritten | src/services/petService.ts:195-202 | `updatePet` as written copies name, description, type, breed and picture |
| EditPet.AsWrittenIgnoresLocation | src/services/petService.ts:63-77 | as written, the location chosen never reaches the request |
| EditPet.AsWrittenSendsInvalidDate | src/services/petService.ts:65-66 | as written, every save sends `NaN-NaN-NaN` as the date |
| EditPet.UpdateRequest | src/pages/EditPet.tsx:100-109 | the same copied fields, no date, and a province and city exactly when the location has two parts |
| EditPet.UpdateRequestCarriesSelection | src/pages/EditPet.tsx:100-109 | a complete selection is sent as exactly the province and city chosen |
| EditPet.UpdateRequestKeepsDate | src/services/petService.ts:195-202 | saving never sends a date, so the stored one is kept |
| EditPet.EditPetPage.constructor | src/pages/EditPet.tsx:10-28 | the empty form with kind `perro`, no selection, loading |
| EditPet.EditPetPage.LoadPet | src/pages/EditPet.tsx:34-70 | without an id nothing happens; a missing listing sets the not-found message; a found one fills the form and, with a two-part location, the selection |
| EditPet.EditPetPage.HandleInputChange | src/pages/EditPet.tsx:72-78 | the form becomes `ApplyChange` of the change |
| EditPet.EditPetPage.HandleProvinceChange | src/pages/EditPet.tsx:80-84 | the province is chosen and the city cleared |
| EditPet.EditPetPage.HandleCityChange | src/pages/EditPet.tsx:86-88 | the city is chosen |
| EditPet.EditPetPage.HandleSubmit | src/pages/EditPet.tsx:90-122 | without an id nothing is sent; otherwise the form with the composed location is sent as `updatePet` builds it (`UpdateRequestAsWritten`), then success sets the message and the redirect to `/my-pets`, failure the error |
| EditPet.EditPetPage.BreedOptions | src/pages/EditPet.tsx:124-126 | the same breeds the publish form offers for the kind |
| EditPet.EditPetPage.CityOptions | src/pages/EditPet.tsx:128-131 | none without a province, else the publish form's cities for it |
| PetDetailPage.MarkFound | src/pages/PetDetail.tsx:92 | the listing is found and nothing else about it changes |
| PetDetailPage.MarkFoundIdempotent | src/pages/PetDetail.tsx:92 | marking found twice is marking found once |
| PetDetailPage.PanelsFor | src/pages/PetDetail.tsx:136-247 | edit controls exactly with both capabilities; the card's image and badge rules; contact exactly when owner name and phone are known; the mark-found card exactly for an editable listing not yet found; the found card exactly when found |
| PetDetailPage.FoundCardsExclusive | src/pages/PetDetail.tsx:216-247 | the mark-found and found cards are never shown together |
| PetDetailPage.MarkFoundSwapsCards | src/pages/PetDetail.tsx:86-100 | marking found replaces the mark-found card by the found card and leaves the controls and contact as they were |
| PetDetailPage.WhatsAppNumber | src/pages/PetDetail.tsx:204 | the WhatsApp link ends in exactly the digits of the phone, in order |
| PetDetailPage.ListedPetHasNoContact | src/pages/PetDetail.tsx:199 | a listing built from a catalog list item never offers contact |
| PetDetailPage.Render | src/pages/PetDetail.tsx:102-124 | the spinner exactly while loading; the error screen exactly when there is an error or no listing; otherwise the listing's panels |
| PetDetailPage.PetDetailPage.constructor | src/pages/PetDetail.tsx:11-16 | no listing, loading, no message, dialog closed |
| PetDetailPage.PetDetailPage.LoadPet | src/pages/PetDetail.tsx:19-41 | without an id nothing is requested and the missing-id message is set; otherwise the listing is kept or the not-found message set; loading ends |
| PetDetailPage.PetDetailPage.HandleDelete | src/pages/PetDetail.tsx:66-68 | the dialog opens |
| PetDetailPage.PetDetailPage.ConfirmDelete | src/pages/PetDetail.tsx:70-84 | nothing without a listing; success goes to `/`, failure sets the message; the dialog closes either way |
| PetDetailPage.PetDetailPage.HandleMarkAsFound | src/pages/PetDetail.tsx:86-100 | success marks the listing found and clears the message; failure sets it and keeps the listing |
| PetDetailPage.PetDetailPage.EditTarget | src/pages/PetDetail.tsx:62-64 | the edit button navigates to `/edit-pet/` followed by the listing's id |
| PetDetailPage.EditLinkOpensEditPage | src/pages/PetDetail.tsx:62-64 | the edit address `/edit-pet/<id>` opens the edit page on both route tables for a signed-in visitor |
| MyPets.RemoveId | src/pages/MyPets.tsx:50 | removing an id never lengthens the list |
| MyPets.RemoveIdMembers | src/pages/MyPets.tsx:50 | exactly the listings with another id are kept |
| MyPets.RemoveIdConcat | src/pages/MyPets.tsx:50 | removal works piecewise, so the kept listings keep their order |
| MyPets.RemoveIdAbsent | src/pages/MyPets.tsx:50 | a list without the id is left as it was |
| MyPets.RemoveIdIdempotent | src/pages/MyPets.tsx:50 | removing the same id twice removes nothing more |
| MyPets.FoundPets | src/pages/MyPets.tsx:122 | the found counter never exceeds the total |
| MyPets.MissingPets | src/pages/MyPets.tsx:114 | the missing counter never exceeds the total |
| MyPets.FoundAndMissingMembers | src/pages/MyPets.tsx:114-122 | the found counter counts exactly the found listings and the missing counter the others |
| MyPets.CountsAddUp | src/pages/MyPets.tsx:106-122 | missing plus found is the total |
| MyPets.Percent | src/pages/MyPets.tsx:130 | a whole percentage up to 100; 100 exactly when all are found, 0 exactly when below one percent or nothing is listed |
| MyPets.SuccessRate | src/pages/MyPets.tsx:130 | the share of found listings, as `Percent` states |
| MyPets.SuccessRateAsWritten | src/pages/MyPets.tsx:130 | as written, the rate card shows the found count |
| MyPets.SuccessRateAsWrittenShowsCount | src/pages/MyPets.tsx:130 | one found and one missing listing: the card shows 1 where the rate is 50 |
| MyPets.StatsOf | src/pages/MyPets.tsx:106-130 | total is the list's length and is missing plus found; the rate card shows what the page renders, the found count again |
| MyPets.MyPetsPage.constructor | src/pages/MyPets.tsx:9-13 | no listings, loading, no message, dialog closed, nothing chosen |
| MyPets.MyPetsPage.LoadMyPets | src/pages/MyPets.tsx:20-34 | whatever the fetch returns the list is emptied; a failure only sets the message; loading ends |
| MyPets.MyPetsPage.HandleDeletePet | src/pages/MyPets.tsx:40-43 | the listing is chosen and the dialog opens |
| MyPets.MyPetsPage.HandleCloseDeleteModal | src/pages/MyPets.tsx:59-62 | the dialog closes and the choice is forgotten |
| MyPets.MyPetsPage.ConfirmDelete | src/pages/MyPets.tsx:45-57 | nothing without a choice; success removes every listing with its id, closes the dialog and forgets the choice; failure only sets the message |
| MyPets.MyPetsPage.Counters | src/pages/MyPets.tsx:106-130 | the four counters of the page's list, as rendered |
| MyPets.LoadedPageIsEmpty | src/pages/MyPets.tsx:24-27 | after loading, a fresh page shows four zero counters, whatever was fetched |
| PetCard.BadgeVariant | src/components/PetCard.tsx:27-33 | dogs primary, cats success, anything else secondary, each exactly |
| PetCard.ImageSource | src/components/PetCard.tsx:57 | the listing's picture, or the stock one for an empty URL; never empty |
| PetCard.Excerpt | src/components/PetCard.tsx:78-81 | at most 103 characters; a description of up to 100 is unchanged; a longer one is its first 100 characters and `...` |
| PetCard.ExcerptIdempotent | src/components/PetCard.tsx:78-81 | shortening a shortened description changes nothing |
| PetCard.ExcerptReadsOnlyPrefix | src/components/PetCard.tsx:78-81 | two long descriptions that agree on 100 characters show alike |
| PetCard.Card | src/components/PetCard.tsx:47-88 | the found badge exactly when found, the image, badge and excerpt rules, and `/pet/<id>` as detail link |
| PetImage.Initial | src/components/PetImage.tsx:17-18 | the given source, no error seen |
| PetImage.FallbackOrDefault | src/components/PetImage.tsx:15 | the given fallback, else the stock picture |
| PetImage.OnError | src/components/PetImage.tsx:20-25 | after an error the flag is set; the first switches to the fallback; later ones change nothing |
| PetImage.OnErrorIdempotent | src/components/PetImage.tsx:21 | handling an error twice is handling it once |
| PetImage.ErrorsSettle | src/components/PetImage.tsx:17-25 | after any number of errors from the start, the fallback is shown with the flag set |
| PetImage.ErrorIsPermanent | src/components/PetImage.tsx:21 | once an error is seen, no later error changes the state |
| PetImage.Image.constructor | src/components/PetImage.tsx:11-18 | the initial state and the fallback or its default |
| PetImage.Image.HandleError | src/components/PetImage.tsx:20-25 | the state becomes `OnError` of the state before |
| FilterTables.Lookup | src/pages/EditPet.tsx:124-131 | `undefined` exactly for a missing key, else the value of an entry with the key |
| FilterTables.BreedsByTypeShape | src/data/filterOptions.ts:1-35 | the keys `perro`, `gato`, `otro`, with ten, ten and seven breeds |
| FilterTables.BreedsPartitioned | src/data/filterOptions.ts:2-34 | no breed is listed under two kinds |
| FilterTables.ProvinceTables | src/data/filterOptions.ts:37-73 | ten cities and ten provinces, and the provinces are the keys of the province-to-cities record, in order |
| FilterTables.FiveCitiesEach | src/data/filterOptions.ts:63-73 | every province offers exactly five cities |
| Text.Trim | src/pages/Register.tsx:39 | an infix of the input with only whitespace before and after it; empty exactly for all whitespace; otherwise neither starting nor ending with whitespace |
| Text.TrimInfix | src/pages/Register.tsx:39 | dropping leading then trailing whitespace leaves an infix framed by whitespace |
| Text.Utf16Length | src/pages/Login.tsx:45 | between one and two code units per character, and zero only for the empty string |
| Text.Utf16LengthBmp | src/pages/Login.tsx:45 | within the Basic Multilingual Plane the length is the number of characters |
| Text.Utf16LengthConcat | src/pages/Login.tsx:45 | the length of a concatenation is the sum of the lengths |
| Text.Split | src/services/authService.ts:76 | `split` gives at least one part, and no part contains the separator |
| Text.NoneBeforeFirst | src/services/authService.ts:76 | the text before the first occurrence of the separator does not contain it |
| Text.JoinSplit | src/services/authService.ts:76-77 | joining the parts of a split with the separator gives back the string |
| Text.PadStart | src/services/petService.ts:66 | the input preceded by exactly enough fill characters to reach the width |
| Text.IntToString | src/services/petService.ts:27 | the decimal digits, with a minus sign for a negative number |
| Text.ParseNatToString | src/services/petService.ts:27 | the digits of a natural number read back as it |
| Text.KeepDigits | src/pages/PetDetail.tsx:204 | only digits, no longer than the input, and an all-digit string unchanged |
| Text.KeepDigitsConcat | src/pages/PetDetail.tsx:204 | stripping works piecewise, so the digits keep their order |

## Left out

- HTTP transport (`fetch`, header merging, `response.json()`, multipart bodies): each answer is an input value.
- `atob` and `JSON.parse` of the token: `decodeToken` takes the decoded payload, or `None`, as input.
- Date parsing and locale formatting (`new Date`, `toLocaleDateString`): `mapPetToApiRequest` takes the day, month and year that `Date` would read, or `None` for an invalid date.
- URL encoding of the search parameters: the query is a list of name and value pairs.
- Object-URL previews: the URL is a parameter of `HandleFileChange`.
- The 1.5-second `setTimeout` before `/my-pets`: the redirect target is recorded.
- Async interleaving, and the `isSubmitting`/`saving`/`deleting`/`markingAsFound` flags as guards against a double submit: each handler runs to completion. `isSubmitting` is modelled where it is a visible state.
- The `encodeUser` parameter stands for `JSON.stringify` of a user.
- The pages' "could not load" messages (EditPet, PetDetail): `getPetById` never throws, so they cannot appear.
- Home.Catalog.LoadPets takes what `getAllPets` returned, or `None` when it threw.
- `deletePet` and `markPetAsFound` are passed straight to `PetService.FetchFromApi` in the calling pages. They add only an endpoint and a method, which are not modelled. `updatePet` also builds its request, which is `EditPet.UpdateRequestAsWritten`.
- `src/components/Sidebar.tsx`: presentation only, plus a path comparison and the inline guard, which is modelled.
- `src/types/index.ts`: shapes only; they are the datatypes of `Types`.
- Console logging, JSX markup, Bootstrap components and the card's hover state.
- Full Unicode whitespace, and regular expressions in general: `\s`, `\d` and `\S` are ASCII.
- PetCard.Excerpt: counts and cuts characters, not UTF-16 code units. A description with characters outside the Basic Multilingual Plane is cut later than the card cuts it. A Dafny string cannot hold the half of a surrogate pair that `substring` can leave.
- CSS: which of the two mounted route trees is visible is the `narrow` parameter of `App.Mounted`.
- Case-insensitive route matching: the router matches paths regardless of letter case, so `/LOGIN` reaches the login route; `App.Matches` compares segments exactly.
- Http.ErrorMessage: the message of a JSON parse failure comes from the engine, so it is not given.

## Findings

| source | as written | input that shows it | evidently intended | confidence | as-written member | corrected member |
|---|---|---|---|---|---|---|
| src/services/petService.ts:195-202 with src/pages/EditPet.tsx:100-109 | the edit form goes through the publish-form mapper, which reads `last_seen_province`/`last_seen_city` (absent from the edit form) and never `location` | province `Córdoba`, city `Río Cuarto`: the request carries neither | the chosen province and city are saved | not executed | EditPet.AsWrittenIgnoresLocation | EditPet.UpdateRequestCarriesSelection |
| src/services/petService.ts:65-66 with src/pages/EditPet.tsx:104-109 | the mapper formats `new Date(undefined)`, since the edit form has no `last_seen_time` | any save: the date sent is `NaN-NaN-NaN` | the stored last-seen date is left alone | not executed | EditPet.AsWrittenSendsInvalidDate | EditPet.UpdateRequestKeepsDate |
| src/App.tsx:32-79 | both route trees are mounted and only hidden by CSS, so the wide tree's guard on `/` fires on a narrow screen too | a guest on a narrow screen opens `/`: sent to `/login` | the narrow tree's public catalog is shown | not executed | App.MountedGuestCannotBrowse | App.MobileBrowsingIsPublic |
| src/pages/MyPets.tsx:130 | the "Tasa de Éxito" card shows the number of found listings | one found and one missing listing: the card shows 1 | the success rate, 50 (%) | not executed | MyPets.SuccessRateAsWrittenShowsCount | MyPets.SuccessRate |
