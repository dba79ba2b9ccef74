/** A condition clause (src/when.rs): a label and a predicate callback. */
module WhenClause {
  import opened Tweak

  /** The label is stored but never read by the library. */
  datatype When<!C, E> = When(name: string, f: WhenFn<C, E>)

  /** Asks the condition about the live context: one call of the callback, whose
      verdict and context changes reach the caller exactly as the callback left them. */
  function Check<C, E>(w: When<C, E>, ctx: C): (r: (C, Result<bool, E>))
    ensures r.0 == w.f(ctx).0
    ensures r.1 == w.f(ctx).1
  {
    w.f(ctx)
  }

  /** The label plays no part in checking a condition. */
  lemma CheckIgnoresName<C, E>(w: When<C, E>, name: string, ctx: C)
    ensures Check(w.(name := name), ctx) == Check(w, ctx)
  {
  }
}
