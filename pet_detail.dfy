/**
 * A listing's own page (src/pages/PetDetail.tsx): loading it by id, what is shown for it
 * depending on the viewer's capabilities and on whether it was found, marking it found and
 * deleting it.
 */
module PetDetailPage {
  import opened Wrappers
  import opened Text
  import opened Types
  import opened Http
  import PetService
  import PetCard
  import App

  const MissingId: string := "ID de mascota no proporcionado"
  const NotFound: string := "Mascota no encontrada"
  const DeleteFailed: string := "Error al eliminar la publicación"
  const MarkFailed: string := "Error al marcar la mascota como encontrada"
  /** Shown on the error screen when there is no listing but no error message either. */
  const NoListing: string := "No se pudo cargar la información de la mascota"

  /** The listing with its found flag set; nothing else about it changes. */
  function MarkFound(d: PetDetail): (r: PetDetail)
    ensures r.pet.found
    ensures r.pet.(found := d.pet.found) == d.pet
    ensures r.canEdit == d.canEdit && r.canDelete == d.canDelete
  {
    d.(pet := d.pet.(found := true))
  }

  /** Marking a listing found a second time changes nothing. */
  lemma MarkFoundIdempotent(d: PetDetail)
    ensures MarkFound(MarkFound(d)) == MarkFound(d)
  {
  }

  /** The two contact links: a phone call and a WhatsApp chat with the digits of the phone. */
  datatype Contact = Contact(tel: string, whatsApp: string)

  /** The parts of the detail screen that depend on the listing. */
  datatype Panels = Panels(
    editControls: bool,
    image: string,
    badge: PetCard.Variant,
    contact: Option<Contact>,
    markFoundCard: bool,
    foundCard: bool)

  /** The detail screen of a listing. */
  function PanelsFor(d: PetDetail): (v: Panels)
    ensures v.editControls <==> d.canEdit && d.canDelete
    ensures v.image == PetCard.ImageSource(d.pet.imageUrl) && v.badge == PetCard.BadgeVariant(d.pet.kind)
    ensures v.contact.Some? <==> d.pet.ownerName != PetService.Unavailable && d.pet.ownerPhone != PetService.Unavailable
    ensures v.contact.Some? ==>
      v.contact.value.tel == "tel:" + d.pet.ownerPhone
      && v.contact.value.whatsApp == "https://wa.me/" + KeepDigits(d.pet.ownerPhone)
    ensures v.markFoundCard <==> d.canEdit && !d.pet.found
    ensures v.foundCard <==> d.pet.found
  {
    var contact :=
      if d.pet.ownerName != PetService.Unavailable && d.pet.ownerPhone != PetService.Unavailable
      then Some(Contact("tel:" + d.pet.ownerPhone, "https://wa.me/" + KeepDigits(d.pet.ownerPhone)))
      else None;
    Panels(d.canEdit && d.canDelete, PetCard.ImageSource(d.pet.imageUrl), PetCard.BadgeVariant(d.pet.kind),
           contact, d.canEdit && !d.pet.found, d.pet.found)
  }

  /** The mark-found card and the found card are never shown together. */
  lemma FoundCardsExclusive(d: PetDetail)
    ensures !(PanelsFor(d).markFoundCard && PanelsFor(d).foundCard)
  {
  }

  /** Marking a listing found replaces the mark-found card by the found card. */
  lemma MarkFoundSwapsCards(d: PetDetail)
    requires PanelsFor(d).markFoundCard
    ensures !PanelsFor(MarkFound(d)).markFoundCard && PanelsFor(MarkFound(d)).foundCard
    ensures PanelsFor(MarkFound(d)).editControls == PanelsFor(d).editControls
    ensures PanelsFor(MarkFound(d)).contact == PanelsFor(d).contact
  {
  }

  /** The WhatsApp link carries only digits, in the order they appear in the phone. */
  lemma WhatsAppNumber(d: PetDetail)
    requires PanelsFor(d).contact.Some?
    ensures var w := PanelsFor(d).contact.value.whatsApp;
      StartsWith(w, "https://wa.me/") && AllDigits(w[|"https://wa.me/"|..])
      && w[|"https://wa.me/"|..] == KeepDigits(d.pet.ownerPhone)
  {
    var w := PanelsFor(d).contact.value.whatsApp;
    assert w == "https://wa.me/" + KeepDigits(d.pet.ownerPhone);
    assert w[|"https://wa.me/"|..] == KeepDigits(d.pet.ownerPhone);
  }

  /** A listing read from the catalog list carries the placeholder owner, so it offers no contact. */
  lemma ListedPetHasNoContact(a: PetListApiResponse, canEdit: bool, canDelete: bool)
    ensures PanelsFor(PetDetail(PetService.MapPetListApiResponseToPet(a), canEdit, canDelete)).contact.None?
  {
  }

  /** What the page renders. */
  datatype Screen = Spinner | ErrorScreen(message: string) | DetailScreen(panels: Panels)

  /** The spinner while loading; the error screen when there is an error or no listing. */
  function Render(loading: bool, error: string, pet: Option<PetDetail>): (s: Screen)
    ensures loading <==> s == Spinner
    ensures s.ErrorScreen? <==> !loading && (error != "" || pet.None?)
    ensures s.ErrorScreen? ==> s.message == if error != "" then error else NoListing
    ensures s.DetailScreen? ==> pet.Some? && s.panels == PanelsFor(pet.value)
  {
    if loading then Spinner
    else if error != "" || pet.None? then ErrorScreen(if error != "" then error else NoListing)
    else DetailScreen(PanelsFor(pet.value))
  }

  /** The page's state for the id in the address (`""` when the address has none). */
  class PetDetailPage {
    const id: string
    var pet: Option<PetDetail>
    var loading: bool
    var error: string
    var showDeleteModal: bool
    var navigatedTo: Option<string>

    constructor (id: string)
      ensures this.id == id && pet.None? && loading && error == "" && !showDeleteModal && navigatedTo.None?
    {
      this.id := id;
      pet, loading, error := None, true, "";
      showDeleteModal, navigatedTo := false, None;
    }

    function Screen(): (s: Screen)
      reads this
      ensures s == Render(loading, error, pet)
    {
      Render(loading, error, pet)
    }

    /**
     * `loadPet`, given the answer to `getPetById`: without an id nothing is requested and the
     * missing-id error is set; otherwise the listing is kept, or the not-found error set.
     * `getPetById` never throws, so the page's own load-failure message cannot appear.
     */
    method LoadPet(storage: Storage, resp: Response<PetApiResponse>) returns (newStorage: Storage)
      modifies this`pet, this`loading, this`error
      ensures id == "" ==> newStorage == storage && pet == old(pet) && error == MissingId
      ensures id != "" ==>
        var c := PetService.GetPetById(storage, resp);
        && newStorage == c.storage
        && (c.result.value.Some? ==> pet == c.result.value && error == old(error))
        && (c.result.value.None? ==> pet == old(pet) && error == NotFound)
      ensures !loading
    {
      newStorage := storage;
      if id == "" {
        error := MissingId;
        loading := false;
        return;
      }
      loading := true;
      var c := PetService.GetPetById(storage, resp);
      newStorage := c.storage;
      if c.result.value.Some? {
        pet := c.result.value;
      } else {
        error := NotFound;
      }
      loading := false;
    }

    /** `handleDelete`: opens the confirmation dialog. */
    method HandleDelete()
      modifies this`showDeleteModal
      ensures showDeleteModal
    {
      showDeleteModal := true;
    }

    /**
     * `confirmDelete`, given the answer to `deletePet`: nothing without a listing; success
     * goes home, failure sets the error; the dialog closes either way.
     */
    method ConfirmDelete<B>(storage: Storage, resp: Response<B>) returns (newStorage: Storage)
      modifies this`error, this`showDeleteModal, this`navigatedTo
      ensures old(pet).None? ==>
        newStorage == storage && error == old(error) && showDeleteModal == old(showDeleteModal)
        && navigatedTo == old(navigatedTo)
      ensures old(pet).Some? ==>
        var c := PetService.FetchFromApi(storage, resp);
        && newStorage == c.storage && !showDeleteModal
        && (c.result.Success? ==> navigatedTo == Some("/") && error == old(error))
        && (c.result.Failure? ==> navigatedTo == old(navigatedTo) && error == DeleteFailed)
    {
      newStorage := storage;
      if pet.None? {
        return;
      }
      var c := PetService.FetchFromApi(storage, resp);
      newStorage := c.storage;
      if c.result.Success? {
        navigatedTo := Some("/");
      } else {
        error := DeleteFailed;
      }
      showDeleteModal := false;
    }

    /**
     * `handleMarkAsFound`, given the answer to `markPetAsFound`: success sets the found flag
     * and clears the error; failure sets the error and keeps the listing as it was.
     */
    method HandleMarkAsFound<B>(storage: Storage, resp: Response<B>) returns (newStorage: Storage)
      modifies this`pet, this`error
      ensures old(pet).None? ==> newStorage == storage && pet == old(pet) && error == old(error)
      ensures old(pet).Some? ==>
        var c := PetService.FetchFromApi(storage, resp);
        && newStorage == c.storage
        && (c.result.Success? ==> pet == Some(MarkFound(old(pet).value)) && error == "")
        && (c.result.Failure? ==> pet == old(pet) && error == MarkFailed)
    {
      newStorage := storage;
      match pet {
        case None =>
        case Some(d) =>
          var c := PetService.FetchFromApi(storage, resp);
          newStorage := c.storage;
          if c.result.Success? {
            pet := Some(MarkFound(d));
            error := "";
          } else {
            error := MarkFailed;
          }
      }
    }

    /** `handleEdit`: the address of the edit page for this listing. */
    function EditTarget(): (path: string)
      reads this
      requires pet.Some?
      ensures path == "/edit-pet/" + pet.value.pet.id
    {
      "/edit-pet/" + pet.value.pet.id
    }
  }

  /**
   * The edit button's address is the path of the segments `edit-pet`, id, and for a signed-in
   * visitor those segments open the edit page on both route tables.
   */
  lemma EditLinkOpensEditPage(id: string)
    requires id != ""
    ensures App.Pathname(["edit-pet", id]) == "/edit-pet/" + id
    ensures App.Resolve(App.Desktop, ["edit-pet", id], true) == App.Shows(App.EditPetPage)
    ensures App.Resolve(App.Mobile, ["edit-pet", id], true) == App.Shows(App.EditPetPage)
  {
    var path := ["edit-pet", id];
    assert Text.Join(path, "/") == "edit-pet" + "/" + id by {
      assert path[1..] == [id];
    }
    assert App.Matches(App.EditRoute.pattern, path);
    assert App.FirstMatch(App.Desktop, path, 6) == Some(6);
    assert App.FirstMatch(App.Desktop, path, 0) == Some(6);
    assert App.FirstMatch(App.Mobile, path, 6) == Some(6);
    assert App.FirstMatch(App.Mobile, path, 0) == Some(6);
  }
}
