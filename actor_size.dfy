/**
 * Creature and item size categories, and the normalisation that the kit
 * expander applies to a requested size before stamping it on every clone.
 * The host's size class is not part of this model; it is represented by
 * the one rule the expander relies on: with "small is medium" switched on,
 * small collapses to medium and every other category is kept.
 */
module ActorSize {
  import opened Wrappers

  /** The six size categories: tiny, sm, med, lg, huge, grg. */
  datatype Size = Tiny | Sm | Med | Lg | Huge | Grg

  /** The size used when a caller requests none. */
  const DefaultSize: Size := Med

  /** Applies the "small is medium" rule to one category. */
  function SmallIsMedium(s: Size): (r: Size)
    ensures r != Sm
    ensures s == Sm ==> r == Med
    ensures s != Sm ==> r == s
  {
    if s == Sm then Med else s
  }

  /** The size stamped on clones: the request, or medium when there is none,
      with small collapsed to medium. */
  function NormalizeSize(requested: Option<Size>): (r: Size)
    ensures r != Sm
    ensures requested.None? ==> r == Med
    ensures requested == Some(Sm) ==> r == Med
    ensures requested.Some? && requested.value != Sm ==> r == requested.value
  {
    SmallIsMedium(requested.GetOr(DefaultSize))
  }

  /** Passing a normalised size back in changes nothing, so a recursive call
      that receives the caller's normalised size uses that same size. */
  lemma NormalizeIsIdempotent(requested: Option<Size>)
    ensures NormalizeSize(Some(NormalizeSize(requested))) == NormalizeSize(requested)
  {
  }
}
