/**
 * The constant lookup tables the forms and the catalog filters use (src/data/filterOptions.ts).
 * The source's object literals are ordered records; they are kept here as ordered lists of
 * entries, so that the key order is part of the model, with a lookup that plays the part of
 * indexing the record.
 */
module FilterTables {
  import opened Wrappers

  type Table = seq<(string, seq<string>)>

  const PerroBreeds: seq<string> := [
    "Labrador Retriever", "Golden Retriever", "Pastor Alemán", "Bulldog", "Beagle",
    "Poodle", "Rottweiler", "Yorkshire Terrier", "Boxer", "Dachshund"]

  const GatoBreeds: seq<string> := [
    "Persa", "Siamés", "Maine Coon", "Ragdoll", "British Shorthair",
    "Abyssinian", "Russian Blue", "Sphynx", "Bengal", "Munchkin"]

  const OtroBreeds: seq<string> := [
    "Conejo", "Hamster", "Cobayo", "Hurón", "Pájaro", "Tortuga", "Pez"]

  /** `breedsByType`: the breeds offered for each kind of pet. */
  const BreedsByType: Table := [("perro", PerroBreeds), ("gato", GatoBreeds), ("otro", OtroBreeds)]

  /** `cities`: the catalog's city filter options. */
  const Cities: seq<string> := [
    "Buenos Aires", "Córdoba", "Rosario", "Mendoza", "La Plata",
    "San Miguel de Tucumán", "Mar del Plata", "Salta", "Santa Fe", "San Juan"]

  /** `provinces`: the province options of the publish and edit forms. */
  const Provinces: seq<string> := [
    "Buenos Aires", "Córdoba", "Santa Fe", "Mendoza", "Tucumán",
    "Salta", "Entre Ríos", "Chaco", "Corrientes", "Santiago del Estero"]

  /** `provincesAndCities`: the cities offered for each province. */
  const ProvincesAndCities: Table := [
    ("Buenos Aires", BuenosAiresCities), ("Córdoba", CordobaCities), ("Santa Fe", SantaFeCities),
    ("Mendoza", MendozaCities), ("Tucumán", TucumanCities), ("Salta", SaltaCities),
    ("Entre Ríos", EntreRiosCities), ("Chaco", ChacoCities), ("Corrientes", CorrientesCities),
    ("Santiago del Estero", SantiagoCities)]

  const BuenosAiresCities: seq<string> := ["La Plata", "Mar del Plata", "Bahía Blanca", "Tandil", "Necochea"]
  const CordobaCities: seq<string> := ["Córdoba", "Río Cuarto", "Villa María", "San Francisco", "Villa Carlos Paz"]
  const SantaFeCities: seq<string> := ["Rosario", "Santa Fe", "Rafaela", "Reconquista", "Venado Tuerto"]
  const MendozaCities: seq<string> := ["Mendoza", "San Rafael", "San Martín", "Tunuyán", "Maipú"]
  const TucumanCities: seq<string> := ["San Miguel de Tucumán", "Yerba Buena", "Tafí Viejo", "Aguilares", "Banda del Río Salí"]
  const SaltaCities: seq<string> := ["Salta", "San Ramón de la Nueva Orán", "Tartagal", "Metán", "Cafayate"]
  const EntreRiosCities: seq<string> := ["Paraná", "Concordia", "Gualeguaychú", "Gualeguay", "Concepción del Uruguay"]
  const ChacoCities: seq<string> := ["Resistencia", "Sáenz Peña", "Villa Ángela", "Charata", "Presidencia Roque Sáenz Peña"]
  const CorrientesCities: seq<string> := ["Corrientes", "Goya", "Paso de los Libres", "Curuzú Cuatiá", "Mercedes"]
  const SantiagoCities: seq<string> := ["Santiago del Estero", "La Banda", "Termas de Río Hondo", "Añatuya", "Quimilí"]

  /** The keys of a table, in order. */
  function Keys(t: Table): (ks: seq<string>)
    ensures |ks| == |t| && forall i :: 0 <= i < |t| ==> ks[i] == t[i].0
  {
    if t == [] then [] else [t[0].0] + Keys(t[1..])
  }

  /** `record[key]`: the value of the first entry with that key, or `None` (JavaScript's `undefined`). */
  function Lookup(t: Table, key: string): (r: Option<seq<string>>)
    ensures r.None? <==> key !in Keys(t)
    ensures r.Some? ==> exists i :: 0 <= i < |t| && t[i] == (key, r.value)
  {
    if t == [] then None
    else if t[0].0 == key then Some(t[0].1)
    else Lookup(t[1..], key)
  }

  /** `record[key] || []`. */
  function LookupOrEmpty(t: Table, key: string): seq<string>
  {
    Lookup(t, key).GetOr([])
  }

  lemma BreedsByTypeShape()
    ensures Keys(BreedsByType) == ["perro", "gato", "otro"]
    ensures LookupOrEmpty(BreedsByType, "perro") == PerroBreeds && |PerroBreeds| == 10
    ensures LookupOrEmpty(BreedsByType, "gato") == GatoBreeds && |GatoBreeds| == 10
    ensures LookupOrEmpty(BreedsByType, "otro") == OtroBreeds && |OtroBreeds| == 7
  {
  }

  /** No breed is listed under two kinds of pet. */
  lemma BreedsPartitioned()
    ensures forall b :: b in PerroBreeds ==> b !in GatoBreeds && b !in OtroBreeds
    ensures forall b :: b in GatoBreeds ==> b !in OtroBreeds
  {
  }

  /** `provinces` and the keys of `provincesAndCities` hold the same ten names in the same order. */
  lemma ProvinceTables()
    ensures |Provinces| == 10 && |Cities| == 10
    ensures Keys(ProvincesAndCities) == Provinces
  {
    ProvinceKeysInOrder();
    var t, p := ProvincesAndCities, Provinces;
    assert |t| == 10 == |p|;
    assert forall i :: 0 <= i < 10 ==> t[i].0 == p[i];
    KeysEqual(t, p);
  }

  lemma ProvinceKeysInOrder()
    ensures ProvincesAndCities[0].0 == Provinces[0] && ProvincesAndCities[1].0 == Provinces[1]
    ensures ProvincesAndCities[2].0 == Provinces[2] && ProvincesAndCities[3].0 == Provinces[3]
    ensures ProvincesAndCities[4].0 == Provinces[4] && ProvincesAndCities[5].0 == Provinces[5]
    ensures ProvincesAndCities[6].0 == Provinces[6] && ProvincesAndCities[7].0 == Provinces[7]
    ensures ProvincesAndCities[8].0 == Provinces[8] && ProvincesAndCities[9].0 == Provinces[9]
  {
  }

  /** A table whose entries carry the given names, in order, has exactly those keys. */
  lemma KeysEqual(t: Table, ks: seq<string>)
    requires |t| == |ks| && forall i :: 0 <= i < |t| ==> t[i].0 == ks[i]
    ensures Keys(t) == ks
  {
    assert forall i :: 0 <= i < |t| ==> Keys(t)[i] == ks[i];
  }

  /** Every province offers exactly five cities. */
  lemma FiveCitiesEach()
    ensures forall i :: 0 <= i < |ProvincesAndCities| ==> |ProvincesAndCities[i].1| == 5
  {
  }
}
