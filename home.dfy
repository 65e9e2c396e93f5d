/**
 * The catalog page (src/pages/Home.tsx): the filter selection, the filtered list it derives
 * from the loaded listings, the breed options, the current page and the visible slice.
 */
module Home {
  import opened Wrappers
  import opened Text
  import opened Types
  import FilterTables
  import Pagination

  const ItemsPerPage: nat := 9

  const NoFilters: FilterOptions := FilterOptions("", "", "")

  /** One of the three filter keys `handleFilterChange` is called with. */
  datatype FilterKey = KindKey | BreedKey | CityKey

  /** The selection after `handleFilterChange(key, value)`: a new type also clears the breed. */
  function UpdateFilters(f: FilterOptions, key: FilterKey, value: string): (g: FilterOptions)
    ensures key == KindKey ==> g == FilterOptions(value, "", f.city)
    ensures key == BreedKey ==> g == f.(breed := value)
    ensures key == CityKey ==> g == f.(city := value)
  {
    match key
    case KindKey => f.(kind := value, breed := "")
    case BreedKey => f.(breed := value)
    case CityKey => f.(city := value)
  }

  /** A breed is only ever chosen together with a type. */
  predicate BreedNeedsKind(f: FilterOptions) {
    f.breed != "" ==> f.kind != ""
  }

  /** The breed select is disabled without a type. */
  predicate BreedSelectEnabled(f: FilterOptions) {
    f.kind != ""
  }

  /** Every change the selects can make keeps a chosen breed paired with a type. */
  lemma UpdateKeepsBreedNeedsKind(f: FilterOptions, key: FilterKey, value: string)
    requires BreedNeedsKind(f)
    requires key == BreedKey ==> BreedSelectEnabled(f)
    ensures BreedNeedsKind(UpdateFilters(f, key, value))
  {
  }

  /** A listing passes every set filter: exact type, exact breed, city inside the location. */
  predicate Matches(p: Pet, f: FilterOptions) {
    && (f.kind != "" ==> p.kind == f.kind)
    && (f.breed != "" ==> p.breed == f.breed)
    && (f.city != "" ==> Contains(p.location, f.city))
  }

  /** The reference reading of the filters: the listings that match, in their original order. */
  function Select(s: seq<Pet>, f: FilterOptions): (r: seq<Pet>)
    ensures |r| <= |s|
  {
    if s == [] then [] else (if Matches(s[0], f) then [s[0]] else []) + Select(s[1..], f)
  }

  /** Exactly the matching listings are kept. */
  lemma {:induction false} SelectMembers(s: seq<Pet>, f: FilterOptions, p: Pet)
    ensures p in Select(s, f) <==> p in s && Matches(p, f)
  {
    if s != [] {
      SelectMembers(s[1..], f, p);
      assert s == [s[0]] + s[1..];
    }
  }

  /** Filtering works piecewise, so the kept listings keep their relative order. */
  lemma {:induction false} SelectConcat(a: seq<Pet>, b: seq<Pet>, f: FilterOptions)
    ensures Select(a + b, f) == Select(a, f) + Select(b, f)
  {
    if a == [] {
      assert a + b == b;
    } else {
      var head := if Matches(a[0], f) then [a[0]] else [];
      assert (a + b)[0] == a[0] && (a + b)[1..] == a[1..] + b;
      assert Select(a + b, f) == head + Select(a[1..] + b, f);
      SelectConcat(a[1..], b, f);
      assert head + (Select(a[1..], f) + Select(b, f)) == (head + Select(a[1..], f)) + Select(b, f);
    }
  }

  /** With no filter set, every listing is shown. */
  lemma {:induction false} SelectNoFilters(s: seq<Pet>)
    ensures Select(s, NoFilters) == s
  {
    if s != [] {
      SelectNoFilters(s[1..]);
    }
  }

  /** One `filter` step of `applyFilters`. */
  datatype Criterion = KindIs(kind: string) | BreedIs(breed: string) | LocationHas(city: string)

  predicate Holds(p: Pet, c: Criterion) {
    match c
    case KindIs(k) => p.kind == k
    case BreedIs(b) => p.breed == b
    case LocationHas(city) => Contains(p.location, city)
  }

  /** `Array.prototype.filter` with one criterion. */
  function Keep(s: seq<Pet>, c: Criterion): (r: seq<Pet>)
    ensures |r| <= |s|
  {
    if s == [] then [] else (if Holds(s[0], c) then [s[0]] else []) + Keep(s[1..], c)
  }

  /** Filtering the selection for `f` once more by `c` gives the selection for `g`, when `g` is `f` and `c`. */
  lemma {:induction false} KeepSelect(s: seq<Pet>, f: FilterOptions, c: Criterion, g: FilterOptions)
    requires forall p :: Matches(p, g) <==> Matches(p, f) && Holds(p, c)
    ensures Keep(Select(s, f), c) == Select(s, g)
  {
    if s != [] {
      KeepSelect(s[1..], f, c, g);
      var head := if Matches(s[0], f) then [s[0]] else [];
      KeepConcat(head, Select(s[1..], f), c);
    }
  }

  lemma {:induction false} KeepConcat(a: seq<Pet>, b: seq<Pet>, c: Criterion)
    ensures Keep(a + b, c) == Keep(a, c) + Keep(b, c)
  {
    if a == [] {
      assert a + b == b;
    } else {
      var head := if Holds(a[0], c) then [a[0]] else [];
      assert (a + b)[0] == a[0] && (a + b)[1..] == a[1..] + b;
      assert Keep(a + b, c) == head + Keep(a[1..] + b, c);
      KeepConcat(a[1..], b, c);
      assert head + (Keep(a[1..], c) + Keep(b, c)) == (head + Keep(a[1..], c)) + Keep(b, c);
    }
  }

  /** `getAvailableBreeds`: none without a type, else the table's breeds for it or none. */
  function AvailableBreeds(f: FilterOptions): (r: seq<string>)
    ensures f.kind == "" ==> r == []
    ensures f.kind != "" ==> r == FilterTables.LookupOrEmpty(FilterTables.BreedsByType, f.kind)
  {
    if f.kind == "" then [] else FilterTables.LookupOrEmpty(FilterTables.BreedsByType, f.kind)
  }

  /** The breed options of the three known kinds, and none for an unknown kind. */
  lemma AvailableBreedsByKind(f: FilterOptions)
    ensures f.kind == "perro" ==> AvailableBreeds(f) == FilterTables.PerroBreeds
    ensures f.kind == "gato" ==> AvailableBreeds(f) == FilterTables.GatoBreeds
    ensures f.kind == "otro" ==> AvailableBreeds(f) == FilterTables.OtroBreeds
    ensures f.kind !in ["perro", "gato", "otro"] ==> AvailableBreeds(f) == []
  {
    FilterTables.BreedsByTypeShape();
  }

  /** A position as `Array.prototype.slice` reads it: negative counts from the end, clamped to the list. */
  function SliceIndex(i: int, len: nat): (r: nat)
    ensures r <= len
  {
    if i < 0 then (if len + i < 0 then 0 else len + i) else if i > len then len else i
  }

  /** `s.slice(start, end)`. */
  function JsSlice<T>(s: seq<T>, start: int, end: int): (r: seq<T>)
    ensures var a := SliceIndex(start, |s|); a + |r| <= |s| && r == s[a..a + |r|]
    ensures end - start >= 0 ==> |r| <= end - start
  {
    var a, b := SliceIndex(start, |s|), SliceIndex(end, |s|);
    if a < b then s[a..b] else []
  }

  /** The listings shown on a page: `slice((page - 1) * 9, page * 9)`. */
  function VisiblePets(s: seq<Pet>, page: int): (r: seq<Pet>)
    ensures |r| <= ItemsPerPage
    ensures forall k :: 0 <= k < |r| ==> r[k] in s
  {
    JsSlice(s, (page - 1) * ItemsPerPage, page * ItemsPerPage)
  }

  /** `Math.ceil(length / 9)`: none for no listings, and a pager exactly for more than nine. */
  function TotalPages(n: nat): (pages: nat)
    ensures pages == 0 <==> n == 0
    ensures Pagination.Rendered(pages) <==> n > ItemsPerPage
  {
    Pagination.PageCount(n, ItemsPerPage)
  }

  /**
   * On a page within range the visible listings are the page's window of the list, between
   * one and nine of them, and they are the items the pager's "start-end" range counts.
   */
  lemma VisibleWindow(s: seq<Pet>, page: int)
    requires 1 <= page <= TotalPages(|s|)
    ensures var lo := (page - 1) * ItemsPerPage;
      var hi := if page * ItemsPerPage < |s| then page * ItemsPerPage else |s|;
      && 0 <= lo < hi <= |s|
      && VisiblePets(s, page) == s[lo..hi]
      && 1 <= |VisiblePets(s, page)| <= ItemsPerPage
      && lo + 1 == Pagination.StartItem(page, ItemsPerPage)
      && hi == Pagination.EndItem(page, ItemsPerPage, |s|)
  {
    Pagination.ItemRange(page, ItemsPerPage, |s|);
  }

  /** Nine listings make one page, so no pager; ten make two, the second holding one. */
  lemma PageBoundaries(nine: seq<Pet>, ten: seq<Pet>)
    requires |nine| == 9 && |ten| == 10
    ensures TotalPages(9) == 1 && !Pagination.Rendered(TotalPages(9))
    ensures TotalPages(10) == 2 && Pagination.Rendered(TotalPages(10))
    ensures VisiblePets(ten, 2) == [ten[9]]
    ensures |VisiblePets(nine, 1)| == 9
  {
  }

  /** Picking `gato` as the type keeps exactly the cats, in order. */
  lemma TypeFilterSelectsKind(s: seq<Pet>)
    ensures Select(s, UpdateFilters(NoFilters, KindKey, "gato")) == Keep(s, KindIs("gato"))
  {
    var g := UpdateFilters(NoFilters, KindKey, "gato");
    KeepSelect(s, NoFilters, KindIs("gato"), g);
    SelectNoFilters(s);
  }

  /** The city filter is a substring test: "Plata" matches "Buenos Aires, La Plata". */
  lemma CityIsSubstring(p: Pet)
    requires p.location == "Buenos Aires, La Plata"
    ensures Matches(p, FilterOptions("", "", "Plata"))
  {
    assert InfixAt(p.location, "Plata", 17);
  }

  /** The catalog page's state. */
  class Catalog {
    var pets: seq<Pet>
    var filteredPets: seq<Pet>
    var filters: FilterOptions
    var loading: bool
    var error: string
    var currentPage: int

    /** The state on mount: nothing loaded yet, no filters, page 1. */
    constructor ()
      ensures pets == [] && filteredPets == [] && filters == NoFilters
      ensures loading && error == "" && currentPage == 1
    {
      pets, filteredPets, filters := [], [], NoFilters;
      loading, error, currentPage := true, "", 1;
    }

    /**
     * `loadPets`, given what `getAllPets` returned (`None` when it threw): the list becomes
     * both the full and the filtered list; the filters and page are left alone.
     */
    method LoadPets(fetched: Option<seq<Pet>>)
      modifies this
      ensures fetched.Some? ==> pets == fetched.value && filteredPets == fetched.value && error == old(error)
      ensures fetched.None? ==> pets == old(pets) && filteredPets == old(filteredPets) && error == "Error al cargar las mascotas"
      ensures filters == old(filters) && currentPage == old(currentPage) && !loading
    {
      loading := true;
      match fetched {
        case Some(data) =>
          pets := data;
          filteredPets := data;
        case None =>
          error := "Error al cargar las mascotas";
      }
      loading := false;
    }

    /** `applyFilters`: narrows the full list one set filter at a time, then goes to page 1. */
    method ApplyFilters(current: FilterOptions)
      modifies this`filteredPets, this`currentPage
      ensures filteredPets == Select(pets, current) && currentPage == 1
    {
      var filtered := pets;
      SelectNoFilters(pets);
      var f1 := FilterOptions(current.kind, "", "");
      if current.kind != "" {
        KeepSelect(pets, NoFilters, KindIs(current.kind), f1);
        filtered := Keep(filtered, KindIs(current.kind));
      }
      var f2 := f1.(breed := current.breed);
      if current.breed != "" {
        KeepSelect(pets, f1, BreedIs(current.breed), f2);
        filtered := Keep(filtered, BreedIs(current.breed));
      }
      if current.city != "" {
        KeepSelect(pets, f2, LocationHas(current.city), current);
        filtered := Keep(filtered, LocationHas(current.city));
      }
      assert f2 == current.(city := "");
      filteredPets := filtered;
      currentPage := 1;
    }

    /**
     * `handleFilterChange`: the new selection, and the list filtered from the full list by
     * it alone (never by earlier selections), on page 1.
     */
    method HandleFilterChange(key: FilterKey, value: string)
      modifies this
      ensures filters == UpdateFilters(old(filters), key, value)
      ensures filteredPets == Select(pets, filters) && currentPage == 1
      ensures pets == old(pets) && loading == old(loading) && error == old(error)
    {
      var newFilters := filters;
      match key {
        case KindKey => newFilters := newFilters.(kind := value);
        case BreedKey => newFilters := newFilters.(breed := value);
        case CityKey => newFilters := newFilters.(city := value);
      }
      if key == KindKey {
        newFilters := newFilters.(breed := "");
      }
      filters := newFilters;
      ApplyFilters(newFilters);
    }

    /** "Limpiar filtros": no filters and the full list, but the page is not reset. */
    method ClearFilters()
      modifies this
      ensures filters == NoFilters && filteredPets == pets && filteredPets == Select(pets, filters)
      ensures pets == old(pets) && currentPage == old(currentPage)
      ensures loading == old(loading) && error == old(error)
    {
      filters := NoFilters;
      filteredPets := pets;
      SelectNoFilters(pets);
    }

    /** `onPageChange`, which is `setCurrentPage`. */
    method SetCurrentPage(page: int)
      modifies this`currentPage
      ensures currentPage == page
    {
      currentPage := page;
    }

    function BreedOptions(): seq<string>
      reads this
    {
      AvailableBreeds(filters)
    }

    /** The listings on the current page: at most nine, all of them passing the filters. */
    function Visible(): (r: seq<Pet>)
      reads this
      ensures |r| <= ItemsPerPage
      ensures forall k :: 0 <= k < |r| ==> r[k] in filteredPets
    {
      VisiblePets(filteredPets, currentPage)
    }

    /**
     * The pager is mounted only when some listing passes the filters; the guard is redundant,
     * as with no listing the pager would render nothing anyway.
     */
    function PagerMounted(): (mounted: bool)
      reads this
      ensures !mounted ==> !Pagination.Rendered(TotalPages(|filteredPets|))
    {
      |filteredPets| > 0
    }
  }
}
