/** Small shared vocabulary: nullable values, string prefixes and the
    "later spread wins" rule that JavaScript object spread follows. */
module Common {

  /** A Kotlin `T?` or a TypeScript `T | null`. */
  datatype Option<T> = None | Some(value: T)

  /** `s.startsWith(p)` in Kotlin and JavaScript alike. */
  predicate HasPrefix(s: string, p: string)
  {
    |p| <= |s| && s[..|p|] == p
  }

  lemma PrefixOfConcat(p: string, t: string)
    ensures HasPrefix(p + t, p)
  {
    assert (p + t)[..|p|] == p;
  }

  /** One field of `{ ...current, ...patch }`: a field present in the patch
      replaces the current one, an absent one keeps it. */
  function Overwrite<T>(current: T, patch: Option<T>): (r: T)
    ensures patch.Some? ==> r == patch.value
    ensures patch.None? ==> r == current
  {
    match patch
    case Some(v) => v
    case None => current
  }

  /** The field of `{ ...first, ...second }` when both are patches. */
  function Then<T>(first: Option<T>, second: Option<T>): (r: Option<T>)
    ensures r.None? <==> first.None? && second.None?
    ensures second.Some? ==> r == second
  {
    if second.Some? then second else first
  }

  /** Spreading two patches one after the other is spreading their union. */
  lemma OverwriteThen<T>(current: T, first: Option<T>, second: Option<T>)
    ensures Overwrite(Overwrite(current, first), second) == Overwrite(current, Then(first, second))
  {
  }
}
