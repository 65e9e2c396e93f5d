/**
 * The edit page of a listing (src/pages/EditPet.tsx): the form filled from the stored
 * listing, the province and city picked apart from its location and put back together on
 * saving, the option lists, and the update request.
 */
module EditPet {
  import opened Wrappers
  import opened Text
  import opened Types
  import opened Http
  import PetService
  import FilterTables
  import PetFormPage

  const NotFound: string := "Mascota no encontrada"
  const Updated: string := "Mascota actualizada exitosamente"
  const UpdateFailed: string := "Error al actualizar la mascota"
  /** Where the page goes after a successful save. */
  const AfterSave: string := "/my-pets"

  /** The separator between province and city in a stored location. */
  const LocationSeparator: string := ", "

  /** The edit form; unlike the publish form it keeps the location as one string. */
  datatype EditForm = EditForm(
    name: string,
    description: string,
    kind: string,
    breed: string,
    location: string,
    ownerName: string,
    ownerPhone: string,
    imageUrl: string,
    found: bool)

  const InitialEditForm: EditForm := EditForm("", "", "perro", "", "", "", "", "", false)

  /** The form filled from a stored listing (a missing picture or found flag reads as empty). */
  function FormFromPet(p: Pet): (f: EditForm)
    ensures f.name == p.name && f.description == p.description && f.kind == p.kind && f.breed == p.breed
    ensures f.location == p.location && f.ownerName == p.ownerName && f.ownerPhone == p.ownerPhone
    ensures f.imageUrl == p.imageUrl && f.found == p.found
  {
    EditForm(p.name, p.description, p.kind, p.breed, p.location, p.ownerName, p.ownerPhone, p.imageUrl, p.found)
  }

  /**
   * `location.split(', ')` in `loadPet`: with at least two parts, the first two are the
   * province and the city; otherwise there is no selection to restore.
   */
  function SplitLocation(location: string): (r: Option<(string, string)>)
    ensures r.None? <==> !Contains(location, LocationSeparator)
  {
    var parts := Split(location, LocationSeparator);
    if |parts| >= 2 then Some((parts[0], parts[1])) else None
  }

  /** `fullLocation` in `handleSubmit`: "province, city" when both are chosen, else the old location. */
  function ComposeLocation(province: string, city: string, location: string): (r: string)
    ensures province != "" && city != "" ==>
      StartsWith(r, province + LocationSeparator) && r[|province| + |LocationSeparator|..] == city
    ensures province == "" || city == "" ==> r == location
  {
    if province != "" && city != "" then province + LocationSeparator + city else location
  }

  /** In `p + ", " + rest`, with no separator inside `p`, the first separator follows `p`. */
  lemma SplitAfterHead(p: string, rest: string)
    requires !Contains(p, LocationSeparator)
    ensures Split(p + LocationSeparator + rest, LocationSeparator) == [p] + Split(rest, LocationSeparator)
  {
    var s := p + LocationSeparator + rest;
    assert InfixAt(s, LocationSeparator, |p|);
    var i := IndexOf(s, LocationSeparator).value;
    assert s[|p|] == ',';
    assert s[i..i + 2][1] == s[i + 1] == ' ';
    if i + 2 <= |p| {
      assert s[i..i + 2] == p[i..i + 2];
      assert InfixAt(p, LocationSeparator, i);
    }
    assert i == |p|;
    assert s[..i] == p && s[i + 2..] == rest;
  }

  /**
   * Saving a chosen province and city and loading the result again restores the same
   * province and city, provided neither contains the separator.
   */
  lemma LocationRoundTrip(province: string, city: string, location: string)
    requires province != "" && city != ""
    requires !Contains(province, LocationSeparator) && !Contains(city, LocationSeparator)
    ensures SplitLocation(ComposeLocation(province, city, location)) == Some((province, city))
  {
    SplitAfterHead(province, city);
    SplitAbsent(city, LocationSeparator);
  }

  /** Parts of a stored location after the second are dropped when it is picked apart. */
  lemma SplitDropsExtraParts(province: string, city: string, rest: string)
    requires !Contains(province, LocationSeparator) && !Contains(city, LocationSeparator)
    ensures SplitLocation(province + LocationSeparator + city + LocationSeparator + rest) == Some((province, city))
  {
    SplitAfterHead(province, city + LocationSeparator + rest);
    SplitAfterHead(city, rest);
    assert province + LocationSeparator + city + LocationSeparator + rest
        == province + LocationSeparator + (city + LocationSeparator + rest);
  }

  /** Saving without a complete selection keeps the stored location as it was. */
  lemma IncompleteSelectionKeepsLocation(f: EditForm, province: string, city: string)
    requires province == "" || city == ""
    ensures ComposeLocation(province, city, f.location) == f.location
  {
  }

  /** The fields `handleInputChange` can set: text inputs by name, and the found checkbox. */
  datatype TextField = NameField | DescriptionField | KindField | BreedField | OwnerNameField | OwnerPhoneField | ImageUrlField
  datatype Change = TextChange(field: TextField, value: string) | FoundChecked(checked: bool)

  /** `handleInputChange`: the named field gets the input's value (the checkbox its checked state). */
  function ApplyChange(f: EditForm, c: Change): (g: EditForm)
    ensures c.FoundChecked? ==> g == f.(found := c.checked)
    ensures c.TextChange? ==> g.found == f.found && g.location == f.location
    ensures c.TextChange? && c.field == NameField ==> g == f.(name := c.value)
    ensures c.TextChange? && c.field == DescriptionField ==> g == f.(description := c.value)
    ensures c.TextChange? && c.field == KindField ==> g == f.(kind := c.value)
    ensures c.TextChange? && c.field == BreedField ==> g == f.(breed := c.value)
    ensures c.TextChange? && c.field == OwnerNameField ==> g == f.(ownerName := c.value)
    ensures c.TextChange? && c.field == OwnerPhoneField ==> g == f.(ownerPhone := c.value)
    ensures c.TextChange? && c.field == ImageUrlField ==> g == f.(imageUrl := c.value)
  {
    match c
    case FoundChecked(checked) => f.(found := checked)
    case TextChange(field, value) =>
      match field
      case NameField => f.(name := value)
      case DescriptionField => f.(description := value)
      case KindField => f.(kind := value)
      case BreedField => f.(breed := value)
      case OwnerNameField => f.(ownerName := value)
      case OwnerPhoneField => f.(ownerPhone := value)
      case ImageUrlField => f.(imageUrl := value)
  }

  /** Changing the type leaves the chosen breed in place, even one of another type. */
  lemma KindChangeKeepsBreed(f: EditForm, kind: string)
    ensures ApplyChange(f, TextChange(KindField, kind)).breed == f.breed
  {
  }

  /**
   * The body of `PUT /pets/{id}` as JSON. `None` is a key left out of the JSON because its
   * value is `undefined`.
   */
  datatype UpdateApiRequest = UpdateApiRequest(
    name: string,
    description: string,
    kind: string,
    breed: string,
    lastSeenTime: Option<string>,
    lastSeenProvince: Option<string>,
    lastSeenCity: Option<string>,
    pictureUrl: string)

  /** What `new Date(undefined)` prints as in `DD-MM-YYYY`. */
  const InvalidDate: string := "NaN-NaN-NaN"

  /**
   * `updatePet` as written: the edit form goes through the publish-form mapper, which reads
   * `last_seen_time`, `last_seen_province` and `last_seen_city`, none of which the edit form
   * has, and never reads `location`.
   */
  function UpdateRequestAsWritten(f: EditForm): (req: UpdateApiRequest)
    ensures req.name == f.name && req.description == f.description && req.kind == f.kind
    ensures req.breed == f.breed && req.pictureUrl == f.imageUrl
  {
    UpdateApiRequest(f.name, f.description, f.kind, f.breed, Some(InvalidDate), None, None, f.imageUrl)
  }

  /** As written, the saved location never reaches the request, whatever was chosen. */
  lemma AsWrittenIgnoresLocation(f: EditForm, province: string, city: string)
    requires province != "" && city != ""
    ensures var saved := f.(location := ComposeLocation(province, city, f.location));
      UpdateRequestAsWritten(saved) == UpdateRequestAsWritten(f)
      && UpdateRequestAsWritten(saved).lastSeenProvince.None?
      && UpdateRequestAsWritten(saved).lastSeenCity.None?
  {
  }

  /** As written, every save overwrites the last-seen date with an unparseable one. */
  lemma AsWrittenSendsInvalidDate(f: EditForm)
    ensures UpdateRequestAsWritten(f).lastSeenTime == Some(InvalidDate)
  {
  }

  /**
   * The update the page evidently means to send: the same fields, the location as province
   * and city when it has the two parts, and no date, so the stored one is kept.
   */
  function UpdateRequest(f: EditForm): (req: UpdateApiRequest)
    ensures req.name == f.name && req.description == f.description && req.kind == f.kind
    ensures req.breed == f.breed && req.pictureUrl == f.imageUrl
    ensures req.lastSeenTime.None?
    ensures req.lastSeenProvince.Some? <==> Contains(f.location, LocationSeparator)
    ensures req.lastSeenProvince.Some? <==> req.lastSeenCity.Some?
  {
    var place := SplitLocation(f.location);
    UpdateApiRequest(f.name, f.description, f.kind, f.breed, None,
                     if place.Some? then Some(place.value.0) else None,
                     if place.Some? then Some(place.value.1) else None,
                     f.imageUrl)
  }

  /** A complete selection is sent as exactly the chosen province and city. */
  lemma UpdateRequestCarriesSelection(f: EditForm, province: string, city: string)
    requires province != "" && city != ""
    requires !Contains(province, LocationSeparator) && !Contains(city, LocationSeparator)
    ensures var req := UpdateRequest(f.(location := ComposeLocation(province, city, f.location)));
      req.lastSeenProvince == Some(province) && req.lastSeenCity == Some(city)
  {
    LocationRoundTrip(province, city, f.location);
  }

  /** Saving never touches the stored last-seen date. */
  lemma UpdateRequestKeepsDate(f: EditForm)
    ensures UpdateRequest(f).lastSeenTime.None?
  {
  }

  /** The page's state for the id in the address (`""` when the address has none). */
  class EditPetPage {
    const id: string
    var loading: bool
    var error: string
    var success: string
    var formData: EditForm
    var selectedProvince: string
    var selectedCity: string
    var redirectTo: Option<string>

    constructor (id: string)
      ensures this.id == id && loading && error == "" && success == "" && formData == InitialEditForm
      ensures selectedProvince == "" && selectedCity == "" && redirectTo.None?
    {
      this.id := id;
      loading, error, success := true, "", "";
      formData, selectedProvince, selectedCity := InitialEditForm, "", "";
      redirectTo := None;
    }

    /**
     * `loadPet`, given the answer to `getPetById`: without an id nothing happens (the spinner
     * stays); a missing listing sets the error; a found one fills the form and, when its
     * location has two parts, the province and city. `getPetById` never throws, so the
     * load-failure message cannot appear.
     */
    method LoadPet(storage: Storage, resp: Response<PetApiResponse>) returns (newStorage: Storage)
      modifies this`loading, this`error, this`formData, this`selectedProvince, this`selectedCity
      ensures id == "" ==>
        newStorage == storage && loading == old(loading) && error == old(error) && formData == old(formData)
        && selectedProvince == old(selectedProvince) && selectedCity == old(selectedCity)
      ensures id != "" ==>
        var c := PetService.GetPetById(storage, resp);
        && newStorage == c.storage && !loading
        && (c.result.value.None? ==>
              error == NotFound && formData == old(formData)
              && selectedProvince == old(selectedProvince) && selectedCity == old(selectedCity))
        && (c.result.value.Some? ==>
              var p := c.result.value.value.pet;
              && error == old(error) && formData == FormFromPet(p)
              && (SplitLocation(p.location).Some? ==>
                    (selectedProvince, selectedCity) == SplitLocation(p.location).value)
              && (SplitLocation(p.location).None? ==>
                    selectedProvince == old(selectedProvince) && selectedCity == old(selectedCity)))
    {
      newStorage := storage;
      if id == "" {
        return;
      }
      loading := true;
      var c := PetService.GetPetById(storage, resp);
      newStorage := c.storage;
      match c.result.value {
        case None =>
          error := NotFound;
        case Some(d) =>
          formData := FormFromPet(d.pet);
          var place := SplitLocation(d.pet.location);
          if place.Some? {
            selectedProvince := place.value.0;
            selectedCity := place.value.1;
          }
      }
      loading := false;
    }

    /** `handleInputChange`: only the named field of the form changes. */
    method HandleInputChange(c: Change)
      modifies this`formData
      ensures formData == ApplyChange(old(formData), c)
    {
      formData := ApplyChange(formData, c);
    }

    /** `handleProvinceChange`: a new province clears the chosen city. */
    method HandleProvinceChange(province: string)
      modifies this`selectedProvince, this`selectedCity
      ensures selectedProvince == province && selectedCity == ""
    {
      selectedProvince := province;
      selectedCity := "";
    }

    /** `handleCityChange`. */
    method HandleCityChange(city: string)
      modifies this`selectedCity
      ensures selectedCity == city
    {
      selectedCity := city;
    }

    /**
     * `handleSubmit`, given the answer to `updatePet`: without an id nothing is sent;
     * otherwise the messages are cleared, the form with the composed location goes through
     * `updatePet` as written (which drops that location and sends the invalid date), and the
     * outcome sets the success message and the redirect, or the error.
     */
    method HandleSubmit<B>(storage: Storage, resp: Response<B>) returns (request: Option<UpdateApiRequest>, newStorage: Storage)
      modifies this`error, this`success, this`redirectTo
      ensures id == "" ==>
        request.None? && newStorage == storage && error == old(error) && success == old(success)
        && redirectTo == old(redirectTo)
      ensures id != "" ==>
        var saved := old(formData).(location := ComposeLocation(old(selectedProvince), old(selectedCity), old(formData).location));
        var c := PetService.FetchFromApi(storage, resp);
        && request == Some(UpdateRequestAsWritten(saved)) && newStorage == c.storage
        && (c.result.Success? ==> success == Updated && error == "" && redirectTo == Some(AfterSave))
        && (c.result.Failure? ==> success == "" && error == UpdateFailed && redirectTo == old(redirectTo))
    {
      request, newStorage := None, storage;
      if id == "" {
        return;
      }
      error, success := "", "";
      var f := formData;
      var saved := f.(location := ComposeLocation(selectedProvince, selectedCity, f.location));
      request := Some(UpdateRequestAsWritten(saved));
      var c := PetService.FetchFromApi(storage, resp);
      newStorage := c.storage;
      if c.result.Success? {
        success := Updated;
        redirectTo := Some(AfterSave);
      } else {
        error := UpdateFailed;
      }
    }

    /** `getAvailableBreeds`: the breeds of the form's type, the same list the publish form offers. */
    function BreedOptions(): (r: seq<string>)
      reads this
      ensures r == PetFormPage.BreedOptions(formData.kind)
    {
      FilterTables.BreedsByTypeShape();
      FilterTables.LookupOrEmpty(FilterTables.BreedsByType, formData.kind)
    }

    /** `getAvailableCities`: none without a province, else the province's cities. */
    function CityOptions(): (r: seq<string>)
      reads this
      ensures selectedProvince == "" ==> r == []
      ensures r == PetFormPage.CityOptions(selectedProvince)
    {
      if selectedProvince == "" then []
      else FilterTables.LookupOrEmpty(FilterTables.ProvincesAndCities, selectedProvince)
    }
  }
}
