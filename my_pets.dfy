/**
 * The owner's listings page (src/pages/MyPets.tsx): loading the list, the delete dialog, the
 * removal of a deleted listing and the four counters above the grid.
 */
module MyPets {
  import opened Wrappers
  import opened Types
  import opened Http
  import PetService

  const LoadFailed: string := "Error al cargar tus publicaciones"
  const DeleteFailed: string := "Error al eliminar la publicación"

  /** `myPets.filter(pet => pet.id !== id)`: the listings with another id, in their order. */
  function RemoveId(s: seq<Pet>, id: string): (r: seq<Pet>)
    ensures |r| <= |s|
  {
    if s == [] then []
    else (if s[0].id != id then [s[0]] else []) + RemoveId(s[1..], id)
  }

  /** Exactly the listings with another id are kept. */
  lemma {:induction false} RemoveIdMembers(s: seq<Pet>, id: string, p: Pet)
    ensures p in RemoveId(s, id) <==> p in s && p.id != id
  {
    if s != [] {
      RemoveIdMembers(s[1..], id, p);
      assert s == [s[0]] + s[1..];
    }
  }

  /** Removal works piecewise, so the kept listings stay in their original order. */
  lemma {:induction false} RemoveIdConcat(a: seq<Pet>, b: seq<Pet>, id: string)
    ensures RemoveId(a + b, id) == RemoveId(a, id) + RemoveId(b, id)
    decreases |a|
  {
    if a == [] {
      assert a + b == b;
    } else {
      var head := if a[0].id != id then [a[0]] else [];
      assert (a + b)[0] == a[0] && (a + b)[1..] == a[1..] + b;
      assert RemoveId(a + b, id) == head + RemoveId(a[1..] + b, id);
      RemoveIdConcat(a[1..], b, id);
      assert head + (RemoveId(a[1..], id) + RemoveId(b, id)) == (head + RemoveId(a[1..], id)) + RemoveId(b, id);
    }
  }

  /** A list without the id is left exactly as it was. */
  lemma {:induction false} RemoveIdAbsent(s: seq<Pet>, id: string)
    requires forall k :: 0 <= k < |s| ==> s[k].id != id
    ensures RemoveId(s, id) == s
    decreases |s|
  {
    if s != [] {
      RemoveIdAbsent(s[1..], id);
    }
  }

  /** Deleting the same id twice removes nothing more. */
  lemma RemoveIdIdempotent(s: seq<Pet>, id: string)
    ensures RemoveId(RemoveId(s, id), id) == RemoveId(s, id)
  {
    var r := RemoveId(s, id);
    assert forall k :: 0 <= k < |r| ==> r[k].id != id by {
      forall k | 0 <= k < |r| ensures r[k].id != id {
        RemoveIdMembers(s, id, r[k]);
      }
    }
    RemoveIdAbsent(r, id);
  }

  /** The listings marked found, and those still missing. */
  function FoundPets(s: seq<Pet>): (r: seq<Pet>)
    ensures |r| <= |s|
  {
    if s == [] then [] else (if s[0].found then [s[0]] else []) + FoundPets(s[1..])
  }

  function MissingPets(s: seq<Pet>): (r: seq<Pet>)
    ensures |r| <= |s|
  {
    if s == [] then [] else (if !s[0].found then [s[0]] else []) + MissingPets(s[1..])
  }

  /** The found counter counts exactly the found listings, the missing counter the others. */
  lemma {:induction false} FoundAndMissingMembers(s: seq<Pet>, p: Pet)
    ensures p in FoundPets(s) <==> p in s && p.found
    ensures p in MissingPets(s) <==> p in s && !p.found
  {
    if s != [] {
      FoundAndMissingMembers(s[1..], p);
      assert s == [s[0]] + s[1..];
    }
  }

  /** Every listing is counted once: missing plus found is the total. */
  lemma {:induction false} CountsAddUp(s: seq<Pet>)
    ensures |MissingPets(s)| + |FoundPets(s)| == |s|
    decreases |s|
  {
    if s != [] {
      CountsAddUp(s[1..]);
    }
  }

  /** `part` out of `whole` in whole percent, rounded down; 0 of nothing is 0. */
  function Percent(part: nat, whole: nat): (rate: nat)
    requires part <= whole
    ensures rate <= 100
    ensures rate == 100 <==> whole > 0 && part == whole
    ensures rate == 0 <==> whole == 0 || 100 * part < whole
  {
    if whole == 0 then 0
    else
      var rate := (100 * part) / whole;
      DivisionBounds(100 * part, whole, rate);
      rate
  }

  lemma MulMonotone(a: int, b: int, d: int)
    requires d > 0 && a <= b
    ensures a * d <= b * d
  {
    assert b * d - a * d == (b - a) * d;
  }

  /** The quotient `q` of `n` by `d`, for `n` at most `100 * d`, lies in 0..100. */
  lemma DivisionBounds(n: nat, d: nat, q: nat)
    requires d > 0 && q == n / d && n <= 100 * d
    ensures q <= 100 && (q == 100 <==> n == 100 * d) && (q == 0 <==> n < d)
  {
    var r := n % d;
    assert n == q * d + r && 0 <= r < d;
    if q >= 101 {
      MulMonotone(101, q, d);
    }
    if q <= 99 {
      MulMonotone(q, 99, d);
    }
    if q >= 1 {
      MulMonotone(1, q, d);
    }
  }

  /** The rate the fourth counter, labelled "Tasa de Éxito" (success rate), is evidently meant to show. */
  function SuccessRate(s: seq<Pet>): (rate: nat)
    ensures rate <= 100
    ensures rate == 100 <==> s != [] && |FoundPets(s)| == |s|
    ensures rate == 0 <==> s == [] || 100 * |FoundPets(s)| < |s|
  {
    Percent(|FoundPets(s)|, |s|)
  }

  /** The fourth counter as written: it repeats the number of found listings. */
  function SuccessRateAsWritten(s: seq<Pet>): (shown: nat)
    ensures shown == |FoundPets(s)|
  {
    |FoundPets(s)|
  }

  /** One found and one missing listing: the counter shows 1 where a 50 % rate is meant. */
  lemma SuccessRateAsWrittenShowsCount(p: Pet, q: Pet)
    requires p.found && !q.found
    ensures SuccessRateAsWritten([p, q]) == 1 && SuccessRate([p, q]) == 50
  {
    assert FoundPets([p, q]) == [p] by {
      assert [p, q][1..] == [q];
      assert [q][1..] == [];
    }
  }

  /** The four counters above the grid; `rateCard` is the one labelled "Tasa de Éxito". */
  datatype Stats = Stats(total: nat, missing: nat, found: nat, rateCard: nat)

  /** The counters as the page renders them: the rate card repeats the found count. */
  function StatsOf(s: seq<Pet>): (st: Stats)
    ensures st.total == |s| && st.missing + st.found == st.total
    ensures st.found == |FoundPets(s)| && st.missing == |MissingPets(s)|
    ensures st.rateCard == SuccessRateAsWritten(s) && st.rateCard == st.found
  {
    CountsAddUp(s);
    Stats(|s|, |MissingPets(s)|, |FoundPets(s)|, SuccessRateAsWritten(s))
  }

  /** The page's state. */
  class MyPetsPage {
    var myPets: seq<Pet>
    var loading: bool
    var error: string
    var showDeleteModal: bool
    var petToDelete: Option<Pet>

    constructor ()
      ensures myPets == [] && loading && error == "" && !showDeleteModal && petToDelete.None?
    {
      myPets, loading, error := [], true, "";
      showDeleteModal, petToDelete := false, None;
    }

    /**
     * `loadMyPets`: whatever `getAllPets` returns, the list is set to empty (the filtering
     * by owner is not written); a failure sets the error and leaves the list alone.
     */
    method LoadMyPets(storage: Storage, resp: Response<PaginatedApiResponse>) returns (newStorage: Storage)
      modifies this`myPets, this`loading, this`error
      ensures var c := PetService.GetAllPets(storage, resp);
        && newStorage == c.storage
        && (c.result.Success? ==> myPets == [] && error == old(error))
        && (c.result.Failure? ==> myPets == old(myPets) && error == LoadFailed)
      ensures !loading
    {
      loading := true;
      var c := PetService.GetAllPets(storage, resp);
      newStorage := c.storage;
      if c.result.Success? {
        myPets := [];
      } else {
        error := LoadFailed;
      }
      loading := false;
    }

    /** `handleDeletePet`: remembers the listing and opens the dialog. */
    method HandleDeletePet(p: Pet)
      modifies this`petToDelete, this`showDeleteModal
      ensures petToDelete == Some(p) && showDeleteModal
    {
      petToDelete := Some(p);
      showDeleteModal := true;
    }

    /** `handleCloseDeleteModal`: closes the dialog and forgets the listing. */
    method HandleCloseDeleteModal()
      modifies this`petToDelete, this`showDeleteModal
      ensures petToDelete.None? && !showDeleteModal
    {
      showDeleteModal := false;
      petToDelete := None;
    }

    /**
     * `confirmDelete`, given the answer to `deletePet`: nothing happens without a chosen
     * listing; success drops every listing with its id and closes the dialog; failure only
     * sets the error.
     */
    method ConfirmDelete<B>(storage: Storage, resp: Response<B>) returns (newStorage: Storage)
      modifies this`myPets, this`showDeleteModal, this`petToDelete, this`error
      ensures old(petToDelete).None? ==>
        newStorage == storage && myPets == old(myPets) && showDeleteModal == old(showDeleteModal)
        && petToDelete == old(petToDelete) && error == old(error)
      ensures old(petToDelete).Some? ==>
        var c := PetService.FetchFromApi(storage, resp);
        && newStorage == c.storage
        && (c.result.Success? ==>
              myPets == RemoveId(old(myPets), old(petToDelete).value.id) && !showDeleteModal
              && petToDelete.None? && error == old(error))
        && (c.result.Failure? ==>
              myPets == old(myPets) && showDeleteModal == old(showDeleteModal)
              && petToDelete == old(petToDelete) && error == DeleteFailed)
    {
      newStorage := storage;
      match petToDelete {
        case None =>
        case Some(target) =>
          var c := PetService.FetchFromApi(storage, resp);
          newStorage := c.storage;
          if c.result.Success? {
            myPets := RemoveId(myPets, target.id);
            showDeleteModal := false;
            petToDelete := None;
          } else {
            error := DeleteFailed;
          }
      }
    }

    /** The counters above the grid. */
    function Counters(): (st: Stats)
      reads this
      ensures st == StatsOf(myPets)
    {
      StatsOf(myPets)
    }
  }

  /** Loading always leaves the page empty: a fresh page shows no listings afterwards. */
  method LoadedPageIsEmpty(storage: Storage, resp: Response<PaginatedApiResponse>) returns (st: Stats)
    ensures st == Stats(0, 0, 0, 0)
  {
    var page := new MyPetsPage();
    var _ := page.LoadMyPets(storage, resp);
    st := page.Counters();
  }
}
