/**
 * The publish page (src/pages/PetForm.tsx): the listing form, the dependent selects, the
 * image picker, the rules checked before sending, and the multipart body it sends.
 */
module PetFormPage {
  import opened Wrappers
  import opened Text
  import opened Types
  import opened Http
  import FilterTables
  import PetService

  const NameRequired: string := "El nombre de la mascota es requerido"
  const DescriptionRequired: string := "La descripción es requerida"
  const DescriptionTooShort: string := "La descripción debe tener al menos 10 caracteres"
  const BreedRequired: string := "La raza es requerida"
  const ProvinceRequired: string := "La provincia es requerida"
  const CityRequired: string := "La ciudad es requerida"
  const DateRequired: string := "La fecha es requerida"
  const NotAnImage: string := "Por favor selecciona un archivo de imagen válido"
  const ImageTooLarge: string := "La imagen no puede ser mayor a 5MB"
  const PublishFailed: string := "Error al publicar la mascota. Intenta nuevamente."

  /** 5 MB in bytes: the largest picture accepted. */
  const MaxImageBytes: nat := 5 * 1024 * 1024
  const MinDescriptionLength: nat := 10

  /** A picked file, as far as the page reads it. */
  datatype File = File(mimeType: string, size: nat)

  /** A multipart field: text, or the picked file. */
  datatype Part = TextPart(text: string) | FilePart(file: File)

  /** The messages under each field; "" for none. */
  datatype PetFormErrors = PetFormErrors(
    name: string, description: string, breed: string, province: string,
    city: string, lastSeenTime: string, image: string)

  const NoErrors: PetFormErrors := PetFormErrors("", "", "", "", "", "", "")

  const InitialForm: PetForm := PetForm("", "", "perro", "", "", "", "", Some(""), None)

  /** `!s.trim()`: the trimmed text is empty, which is to say `s` is all whitespace. */
  predicate Blank(s: string)
  {
    AllSpace(s)
  }

  lemma BlankIsEmptyTrim(s: string)
    ensures Blank(s) <==> Trim(s) == ""
  {
  }

  /** The description's message. */
  function DescriptionError(d: string): (m: string)
    ensures m == "" <==> Utf16Length(Trim(d)) >= MinDescriptionLength
    ensures m == DescriptionRequired <==> AllSpace(d)
  {
    if Blank(d) then DescriptionRequired
    else if Utf16Length(Trim(d)) < MinDescriptionLength then DescriptionTooShort
    else ""
  }

  /** `validateForm`: a fresh set of messages, so an earlier picture message is dropped. */
  function ValidatePetForm(f: PetForm): (e: PetFormErrors)
    ensures e.image == ""
  {
    PetFormErrors(
      if Blank(f.name) then NameRequired else "",
      DescriptionError(f.description),
      if Blank(f.breed) then BreedRequired else "",
      if Blank(f.lastSeenProvince) then ProvinceRequired else "",
      if Blank(f.lastSeenCity) then CityRequired else "",
      if Blank(f.lastSeenTime) then DateRequired else "",
      "")
  }

  /** Every required field has non-blank text and the description ten characters. */
  predicate FormComplete(f: PetForm)
  {
    && !AllSpace(f.name) && Utf16Length(Trim(f.description)) >= MinDescriptionLength && !AllSpace(f.breed)
    && !AllSpace(f.lastSeenProvince) && !AllSpace(f.lastSeenCity) && !AllSpace(f.lastSeenTime)
  }

  /** The messages are all empty exactly when the form is complete. */
  lemma ValidPetForm(f: PetForm)
    ensures ValidatePetForm(f) == NoErrors <==> FormComplete(f)
  {
  }

  /** The starting form is never valid: it has no name. */
  lemma InitialFormInvalid()
    ensures ValidatePetForm(InitialForm).name == NameRequired
  {
  }

  /** The breeds offered: those of the chosen kind, none for an unknown or empty kind. */
  function BreedOptions(kind: string): (r: seq<string>)
    ensures kind == "" ==> r == []
    ensures kind != "" ==> r == FilterTables.LookupOrEmpty(FilterTables.BreedsByType, kind)
  {
    if kind == "" then [] else FilterTables.LookupOrEmpty(FilterTables.BreedsByType, kind)
  }

  /** The cities offered: those of the chosen province; the select is disabled without one. */
  function CityOptions(province: string): (r: seq<string>)
    ensures province == "" ==> r == []
    ensures province != "" ==> r == FilterTables.LookupOrEmpty(FilterTables.ProvincesAndCities, province)
  {
    if province == "" then [] else FilterTables.LookupOrEmpty(FilterTables.ProvincesAndCities, province)
  }

  /** A listed province offers its cities; a province that is not listed offers none. */
  lemma CityOptionsExamples()
    ensures CityOptions("Buenos Aires") == ["La Plata", "Mar del Plata", "Bahía Blanca", "Tandil", "Necochea"]
    ensures CityOptions("Chubut") == []
  {
    FilterTables.ProvinceTables();
  }

  /** The checks `handleFileChange` makes, in order: the type, then the size. */
  function FileError(f: File): (m: string)
    ensures m == "" <==> StartsWith(f.mimeType, "image/") && f.size <= MaxImageBytes
  {
    if !StartsWith(f.mimeType, "image/") then NotAnImage
    else if f.size > MaxImageBytes then ImageTooLarge
    else ""
  }

  /** The multipart body: the seven text fields in order, then the picture when one was picked. */
  function Payload(f: PetForm, file: Option<File>): (r: seq<(string, Part)>)
    ensures |r| == if file.Some? then 8 else 7
    ensures r[..7] == [
      ("name", TextPart(f.name)), ("description", TextPart(f.description)),
      ("type", TextPart(f.kind)), ("breed", TextPart(f.breed)),
      ("last_seen_time", TextPart(f.lastSeenTime)),
      ("last_seen_province", TextPart(f.lastSeenProvince)),
      ("last_seen_city", TextPart(f.lastSeenCity))]
    ensures file.Some? ==> r[7] == ("picture", FilePart(file.value))
  {
    var text := [
      ("name", TextPart(f.name)), ("description", TextPart(f.description)),
      ("type", TextPart(f.kind)), ("breed", TextPart(f.breed)),
      ("last_seen_time", TextPart(f.lastSeenTime)),
      ("last_seen_province", TextPart(f.lastSeenProvince)),
      ("last_seen_city", TextPart(f.lastSeenCity))];
    if file.Some? then text + [("picture", FilePart(file.value))] else text
  }

  /** The first value sent under a name. */
  function PartValue(body: seq<(string, Part)>, name: string): Option<Part>
  {
    if body == [] then None else if body[0].0 == name then Some(body[0].1) else PartValue(body[1..], name)
  }

  /** Each field can be read back from the body by its name, and the picture is there exactly when picked. */
  lemma PayloadReadsBack(f: PetForm, file: Option<File>)
    ensures var b := Payload(f, file);
      && PartValue(b, "name") == Some(TextPart(f.name))
      && PartValue(b, "type") == Some(TextPart(f.kind))
      && PartValue(b, "last_seen_city") == Some(TextPart(f.lastSeenCity))
      && PartValue(b, "picture") == (if file.Some? then Some(FilePart(file.value)) else None)
  {
    var b := Payload(f, file);
    assert b[0].0 == "name" && b[2].0 == "type" && b[6].0 == "last_seen_city";
    assert PartValue(b[6..], "last_seen_city") == Some(TextPart(f.lastSeenCity));
    assert PartValue(b[7..], "picture") == (if file.Some? then Some(FilePart(file.value)) else None);
    PartValueSkip(b, 0, 7, "picture");
    PartValueSkip(b, 0, 6, "last_seen_city");
    PartValueSkip(b, 0, 2, "type");
  }

  /** Entries before `k` that carry other names do not affect the lookup. */
  lemma {:induction false} PartValueSkip(b: seq<(string, Part)>, i: nat, k: nat, name: string)
    requires i <= k <= |b|
    requires forall j :: i <= j < k ==> b[j].0 != name
    ensures PartValue(b[i..], name) == PartValue(b[k..], name)
    decreases k - i
  {
    if i < k {
      assert b[i..][1..] == b[i + 1..];
      PartValueSkip(b, i + 1, k, name);
    }
  }

  /** The fields `handleInputChange` is called for. */
  datatype InputField = NameInput | KindInput | BreedInput | CityInput | TimeInput | DescriptionInput

  function SetInput(f: PetForm, field: InputField, value: string): PetForm
  {
    match field
    case NameInput => f.(name := value)
    case KindInput => f.(kind := value)
    case BreedInput => f.(breed := value)
    case CityInput => f.(lastSeenCity := value)
    case TimeInput => f.(lastSeenTime := value)
    case DescriptionInput => f.(description := value)
  }

  function ClearInputError(e: PetFormErrors, field: InputField): PetFormErrors
  {
    match field
    case NameInput => e.(name := "")
    case KindInput => e
    case BreedInput => e.(breed := "")
    case CityInput => e.(city := "")
    case TimeInput => e.(lastSeenTime := "")
    case DescriptionInput => e.(description := "")
  }

  /**
   * What a complete form's submission leaves: the multipart body was sent, the service's
   * storage effects remain, and the page went to the catalog or shows the failure message.
   */
  predicate Sent<B>(form: PetForm, file: Option<File>, storage: Storage, resp: Response<B>,
    body: Option<seq<(string, Part)>>, newStorage: Storage, navigatedTo: Option<string>, submitError: string, isSubmitting: bool)
  {
    var c := PetService.CreatePetWithImage(storage, resp);
    && body == Some(Payload(form, file)) && newStorage == c.storage && !isSubmitting
    && (c.result.Success? ==> navigatedTo == Some("/") && submitError == "")
    && (c.result.Failure? ==> navigatedTo == None && submitError == PublishFailed)
  }

  /** The page's state. */
  class PetFormPage {
    var form: PetForm
    var selectedFile: Option<File>
    var previewUrl: string
    var selectedProvince: string
    var errors: PetFormErrors
    var isSubmitting: bool
    var submitError: string

    constructor ()
      ensures form == InitialForm && selectedFile == None && previewUrl == "" && selectedProvince == ""
      ensures errors == NoErrors && !isSubmitting && submitError == ""
    {
      form, selectedFile, previewUrl, selectedProvince := InitialForm, None, "", "";
      errors, isSubmitting, submitError := NoErrors, false, "";
    }

    /**
     * `handleInputChange`: the field takes the value and its message is cleared (the kind has
     * no message); changing the kind keeps the breed, even one the new kind does not offer.
     */
    method HandleInputChange(field: InputField, value: string)
      modifies this`form, this`errors
      ensures form == SetInput(old(form), field, value)
      ensures errors == ClearInputError(old(errors), field)
    {
      form := SetInput(form, field, value);
      errors := ClearInputError(errors, field);
    }

    /** `handleProvinceChange`: the province is chosen and the city reset. */
    method HandleProvinceChange(province: string)
      modifies this`form, this`selectedProvince
      ensures selectedProvince == province
      ensures form == old(form).(lastSeenProvince := province, lastSeenCity := "")
    {
      selectedProvince := province;
      form := form.(lastSeenProvince := province, lastSeenCity := "");
    }

    /**
     * `handleFileChange`, given the picked file (`None` when the dialog was cancelled) and
     * the object URL the browser would create for it: a rejected file leaves the earlier
     * pick and preview in place and shows its message.
     */
    method HandleFileChange(file: Option<File>, objectUrl: string)
      modifies this`selectedFile, this`previewUrl, this`errors
      ensures file.None? ==> selectedFile == old(selectedFile) && previewUrl == old(previewUrl) && errors == old(errors)
      ensures file.Some? && FileError(file.value) != "" ==>
        selectedFile == old(selectedFile) && previewUrl == old(previewUrl)
        && errors == old(errors).(image := FileError(file.value))
      ensures file.Some? && FileError(file.value) == "" ==>
        selectedFile == file && previewUrl == objectUrl && errors == old(errors).(image := "")
    {
      if file.Some? {
        var f := file.value;
        if !StartsWith(f.mimeType, "image/") {
          errors := errors.(image := NotAnImage);
          return;
        }
        if f.size > MaxImageBytes {
          errors := errors.(image := ImageTooLarge);
          return;
        }
        selectedFile := file;
        errors := errors.(image := "");
        previewUrl := objectUrl;
      }
    }

    /**
     * `handleSubmit`, given the stored credentials and the server's answer: an invalid form
     * is not sent; a valid one sends the multipart body, then goes to the catalog or shows
     * the failure message.
     */
    method HandleSubmit<B>(storage: Storage, resp: Response<B>)
      returns (body: Option<seq<(string, Part)>>, newStorage: Storage, navigatedTo: Option<string>)
      modifies this`errors, this`isSubmitting, this`submitError
      ensures errors == ValidatePetForm(old(form))
      ensures errors != NoErrors ==> (body == None && newStorage == storage && navigatedTo == None
        && submitError == "" && isSubmitting == old(isSubmitting))
      ensures errors == NoErrors ==> Sent(old(form), old(selectedFile), storage, resp, body, newStorage, navigatedTo, submitError, isSubmitting)
    {
      var f, file := form, selectedFile;
      var e := ValidatePetForm(f);
      submitError, errors := "", e;
      body, newStorage, navigatedTo := None, storage, None;
      if e == NoErrors {
        isSubmitting := true;
        body := Some(Payload(f, file));
        var c := PetService.CreatePetWithImage(storage, resp);
        newStorage := c.storage;
        if c.result.Success? {
          navigatedTo := Some("/");
        } else {
          submitError := PublishFailed;
        }
        isSubmitting := false;
      }
    }
  }
}
