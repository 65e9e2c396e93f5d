/**
 * The listing image (src/components/PetImage.tsx): it shows `src` until the browser reports a
 * load error, then switches once to the fallback picture and ignores any later error.
 */
module PetImage {
  import opened Wrappers

  /** The picture used when no other fallback is given. */
  const DefaultFallbackSrc: string := "/images/pets/default-pet.jpg"

  /** The two pieces of component state. */
  datatype ImageState = ImageState(imgSrc: string, hasError: bool)

  /** The state on mount: the given source, no error seen. */
  function Initial(src: string): (s: ImageState)
    ensures s.imgSrc == src && !s.hasError
  {
    ImageState(src, false)
  }

  /** The fallback actually used: the one given, or the default one. */
  function FallbackOrDefault(fallbackSrc: Option<string>): (f: string)
    ensures fallbackSrc.Some? ==> f == fallbackSrc.value
    ensures fallbackSrc.None? ==> f == DefaultFallbackSrc
  {
    match fallbackSrc
    case Some(f) => f
    case None => DefaultFallbackSrc
  }

  /** `handleError`: the first error switches to the fallback; later ones change nothing. */
  function OnError(s: ImageState, fallbackSrc: string): (t: ImageState)
    ensures t.hasError
    ensures !s.hasError ==> t.imgSrc == fallbackSrc
    ensures s.hasError ==> t == s
  {
    if !s.hasError then ImageState(fallbackSrc, true) else s
  }

  /** The state after `n` error events. */
  function AfterErrors(s: ImageState, fallbackSrc: string, n: nat): ImageState
  {
    if n == 0 then s else OnError(AfterErrors(s, fallbackSrc, n - 1), fallbackSrc)
  }

  /** Handling an error a second time changes nothing. */
  lemma OnErrorIdempotent(s: ImageState, fallbackSrc: string)
    ensures OnError(OnError(s, fallbackSrc), fallbackSrc) == OnError(s, fallbackSrc)
  {
  }

  /**
   * However many errors arrive, the image ends up showing the fallback with the error flag
   * set, exactly as after the first one: the flag never reverts and `src` never comes back.
   */
  lemma {:induction false} ErrorsSettle(src: string, fallbackSrc: string, n: nat)
    requires n >= 1
    ensures AfterErrors(Initial(src), fallbackSrc, n) == ImageState(fallbackSrc, true)
  {
    if n > 1 {
      ErrorsSettle(src, fallbackSrc, n - 1);
    }
  }

  /** Once an error has been seen, every later state keeps it and keeps its picture. */
  lemma {:induction false} ErrorIsPermanent(s: ImageState, fallbackSrc: string, n: nat)
    requires s.hasError
    ensures AfterErrors(s, fallbackSrc, n) == s
  {
    if n > 0 {
      ErrorIsPermanent(s, fallbackSrc, n - 1);
    }
  }

  /** The mounted component. */
  class Image {
    const src: string
    const fallbackSrc: string
    var imgSrc: string
    var hasError: bool

    function State(): ImageState
      reads this
    {
      ImageState(imgSrc, hasError)
    }

    /** Mounting: `fallbackSrc` defaults to the stock picture. */
    constructor (src: string, fallbackSrc: Option<string>)
      ensures this.src == src && this.fallbackSrc == FallbackOrDefault(fallbackSrc)
      ensures State() == Initial(src)
    {
      this.src := src;
      this.fallbackSrc := FallbackOrDefault(fallbackSrc);
      imgSrc := src;
      hasError := false;
    }

    /** `handleError`, run when the browser fails to load the current picture. */
    method HandleError()
      modifies this
      ensures State() == OnError(old(State()), fallbackSrc)
    {
      if !hasError {
        hasError := true;
        imgSrc := fallbackSrc;
      }
    }
  }
}
