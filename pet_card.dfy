/**
 * A catalog card (src/components/PetCard.tsx): the found badge, the picture, the type badge
 * and the shortened description of one listing.
 */
module PetCard {
  import opened Text
  import opened Types

  /** The Bootstrap colour of a type badge. */
  datatype Variant = Primary | Success | Secondary

  /** `getTypeBadgeVariant`: dogs blue, cats green, anything else grey. */
  function BadgeVariant(kind: string): (v: Variant)
    ensures v == Primary <==> kind == "perro"
    ensures v == Success <==> kind == "gato"
    ensures v == Secondary <==> kind != "perro" && kind != "gato"
  {
    if kind == "perro" then Primary
    else if kind == "gato" then Success
    else Secondary
  }

  /** The picture shown when a listing has none. */
  const DefaultImage: string := "/images/pets/default-pet.jpg"

  /** The card's picture: the listing's own, or the stock one when the URL is empty. */
  function ImageSource(imageUrl: string): (src: string)
    ensures src != ""
    ensures imageUrl != "" ==> src == imageUrl
    ensures imageUrl == "" ==> src == DefaultImage
  {
    if imageUrl != "" then imageUrl else DefaultImage
  }

  const ExcerptLength: nat := 100

  const Ellipsis: string := "..."

  /**
   * The description as the card prints it: up to 100 characters unchanged, otherwise the
   * first 100 characters followed by "...".
   */
  function Excerpt(d: string): (r: string)
    ensures |r| <= ExcerptLength + |Ellipsis|
    ensures |d| <= ExcerptLength ==> r == d
    ensures |d| > ExcerptLength ==>
      |r| == ExcerptLength + |Ellipsis| && StartsWith(d, r[..ExcerptLength]) && r[ExcerptLength..] == Ellipsis
  {
    if |d| > ExcerptLength then d[..ExcerptLength] + Ellipsis else d
  }

  /** Shortening an already shortened description gives it back unchanged. */
  lemma ExcerptIdempotent(d: string)
    ensures Excerpt(Excerpt(d)) == Excerpt(d)
  {
    if |d| > ExcerptLength {
      var r := Excerpt(d);
      assert r[..ExcerptLength] == d[..ExcerptLength];
    }
  }

  /** Two descriptions that agree on their first 100 characters and are both long show alike. */
  lemma ExcerptReadsOnlyPrefix(d: string, e: string)
    requires |d| > ExcerptLength && |e| > ExcerptLength
    requires d[..ExcerptLength] == e[..ExcerptLength]
    ensures Excerpt(d) == Excerpt(e)
  {
  }

  /** What one card draws from a listing (the hover effect is left out). */
  datatype CardView = CardView(
    foundBadge: bool,
    image: string,
    title: string,
    badge: Variant,
    kindLabel: string,
    breed: string,
    location: string,
    excerpt: string,
    detailLink: string)

  /** The card of a listing; "Ver detalles" opens `/pet/{id}`. */
  function Card(p: Pet): (v: CardView)
    ensures v.foundBadge <==> p.found
    ensures v.image == ImageSource(p.imageUrl) && v.badge == BadgeVariant(p.kind)
    ensures v.title == p.name && v.kindLabel == p.kind && v.breed == p.breed && v.location == p.location
    ensures v.excerpt == Excerpt(p.description)
    ensures v.detailLink == "/pet/" + p.id
  {
    CardView(p.found, ImageSource(p.imageUrl), p.name, BadgeVariant(p.kind), p.kind, p.breed,
             p.location, Excerpt(p.description), "/pet/" + p.id)
  }
}
