/** A leaf action (src/then.rs): a label and an action callback. */
module ThenClause {
  import opened Tweak

  /** The label is stored but never read by the library. */
  datatype Then<!C, E> = Then(name: string, f: ThenFn<C, E>)

  /** Runs the action once on the context. A successful callback is reported as
      `Ok(true)` ("an action ran"), never as `Ok(false)`; a failing one hands its
      error back unchanged. Either way the context is what the callback left. */
  function Exec<C, E>(t: Then<C, E>, ctx: C): (r: (C, Result<bool, E>))
    ensures r.0 == t.f(ctx).0
    ensures r.1 != Ok(false)
    ensures r.1 == Ok(true) <==> t.f(ctx).1.Ok?
    ensures r.1.Err? <==> t.f(ctx).1.Err?
    ensures r.1.Err? ==> r.1.error == t.f(ctx).1.error
  {
    var (after, res) := t.f(ctx);
    match res
    case Ok(_) => (after, Ok(true))
    case Err(e) => (after, Err(e))
  }

  /** The label plays no part in running an action. */
  lemma ExecIgnoresName<C, E>(t: Then<C, E>, name: string, ctx: C)
    ensures Exec(t.(name := name), ctx) == Exec(t, ctx)
  {
  }
}
