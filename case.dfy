/** A group of when/then clauses (src/case.rs): the builder that declares them
    and the evaluator that walks them in declaration order. */
module CaseGroup {
  import opened Tweak
  import opened WhenClause
  import opened ThenClause

  /** What an entry runs when its condition holds: a leaf action or a whole
      nested group, both behind the one `exec` signature of src/lib.rs. */
  datatype Action<!C, E> = Leaf(leaf: Then<C, E>) | Nested(group: Group<C, E>)

  /** One declared clause: an optional condition and an optional action. */
  datatype Entry<!C, E> = Entry(cond: Option<When<C, E>>, action: Option<Action<C, E>>)

  /** The value of a case: its (never read) label and its entries in declaration order. */
  datatype Group<!C, E> = Group(name: string, entries: seq<Entry<C, E>>)

  // ---------------------------------------------------------------------------
  // The builder, on values. These say what each builder method of `Case` does,
  // and they are what a `then_case` builder function uses to fill in the fresh
  // nested case it is handed.
  // ---------------------------------------------------------------------------

  /** A fresh case: a label and no entries. */
  function NewGroup<C, E>(name: string): Group<C, E>
  {
    Group(name, [])
  }

  /** Declares a condition: exactly one entry, with that condition and no action,
      is added after all earlier entries, which stay as they were. */
  function WithWhen<C, E>(g: Group<C, E>, name: string, f: WhenFn<C, E>): (r: Group<C, E>)
    ensures r.name == g.name
    ensures |r.entries| == |g.entries| + 1
    ensures r.entries[..|g.entries|] == g.entries
    ensures r.entries[|g.entries|] == Entry(Some(When(name, f)), None)
  {
    Group(g.name, g.entries + [Entry(Some(When(name, f)), None)])
  }

  /** Attaches an action to the last entry, replacing whatever action it had;
      its condition and every other entry are left alone. With no entries there
      is nothing to attach to and the case is returned as it was. */
  function WithAction<C, E>(g: Group<C, E>, a: Action<C, E>): (r: Group<C, E>)
    ensures r.name == g.name
    ensures |r.entries| == |g.entries|
    ensures g.entries == [] ==> r == g
    ensures forall i :: 0 <= i < |g.entries| - 1 ==> r.entries[i] == g.entries[i]
    ensures g.entries != [] ==>
              r.entries[|g.entries| - 1] == Entry(g.entries[|g.entries| - 1].cond, Some(a))
  {
    if g.entries == [] then g
    else
      var last := |g.entries| - 1;
      Group(g.name, g.entries[last := g.entries[last].(action := Some(a))])
  }

  /** Declares a leaf action for the most recent condition. */
  function WithThen<C, E>(g: Group<C, E>, name: string, f: ThenFn<C, E>): (r: Group<C, E>)
    ensures r.name == g.name
    ensures |r.entries| == |g.entries|
    ensures g.entries == [] ==> r == g
    ensures forall i :: 0 <= i < |g.entries| - 1 ==> r.entries[i] == g.entries[i]
    ensures g.entries != [] ==> r.entries[|g.entries| - 1].cond == g.entries[|g.entries| - 1].cond
    ensures g.entries != [] ==> r.entries[|g.entries| - 1].action == Some(Leaf(Then(name, f)))
  {
    WithAction(g, Leaf(Then(name, f)))
  }

  /** Declares a nested case for the most recent condition: the builder function
      is handed a fresh empty case with the given label, and what it returns
      becomes the action. */
  function WithThenCase<C, E>(g: Group<C, E>, name: string, build: Group<C, E> -> Group<C, E>): (r: Group<C, E>)
    ensures r.name == g.name
    ensures |r.entries| == |g.entries|
    ensures g.entries == [] ==> r == g
    ensures forall i :: 0 <= i < |g.entries| - 1 ==> r.entries[i] == g.entries[i]
    ensures g.entries != [] ==> r.entries[|g.entries| - 1].cond == g.entries[|g.entries| - 1].cond
    ensures g.entries != [] ==>
              r.entries[|g.entries| - 1].action == Some(Nested(build(Group(name, []))))
  {
    WithAction(g, Nested(build(NewGroup(name))))
  }

  // ---------------------------------------------------------------------------
  // Evaluation, as functions of the rule structure and the context. A run
  // yields the final context and either `Ok(changed)` or the first error.
  // ---------------------------------------------------------------------------

  /** What running an action yields: a leaf runs its callback, a nested group
      is evaluated in full. */
  function RunAction<C, E>(a: Action<C, E>, ctx: C): (r: (C, Result<bool, E>))
    ensures a.Leaf? ==> r.0 == a.leaf.f(ctx).0 && r.1 != Ok(false)
    ensures a.Leaf? ==> (r.1.Err? <==> a.leaf.f(ctx).1.Err?)
    ensures a.Leaf? && r.1.Err? ==> r.1.error == a.leaf.f(ctx).1.error
    ensures a.Nested? && a.group.entries == [] ==> r == (ctx, Ok(false))
    decreases a
  {
    match a
    case Leaf(t) => ThenClause.Exec(t, ctx)
    case Nested(g) => RunEntries(g.entries, ctx)
  }

  /** What evaluating a list of entries yields: the entries before the last are
      evaluated first, and the last one only if they raised no error. */
  function RunEntries<C, E>(es: seq<Entry<C, E>>, ctx: C): (r: (C, Result<bool, E>))
    ensures es == [] ==> r == (ctx, Ok(false))
    ensures (forall i :: 0 <= i < |es| ==> es[i].cond.None?) ==> r == (ctx, Ok(false))
    decreases es
  {
    if es == [] then (ctx, Ok(false))
    else
      var (before, r1) := RunEntries(es[..|es| - 1], ctx);
      if r1.Err? then (before, r1)
      else
        var (after, r2) := RunEntry(es[|es| - 1], before);
        if r2.Err? then (after, r2) else (after, Ok(r1.value || r2.value))
  }

  /** What one entry yields: `Ok(true)` exactly when its condition held and its
      action, if any, did not fail, whatever boolean that action returned. */
  function RunEntry<C, E>(e: Entry<C, E>, ctx: C): (r: (C, Result<bool, E>))
    ensures e.cond.None? ==> r == (ctx, Ok(false))
    ensures e.cond.Some? && Check(e.cond.value, ctx).1.Err? ==> r == Check(e.cond.value, ctx)
    ensures e.cond.Some? && Check(e.cond.value, ctx).1 == Ok(false) ==> r == (Check(e.cond.value, ctx).0, Ok(false))
    ensures r.1 == Ok(true) <==>
              e.cond.Some? && Check(e.cond.value, ctx).1 == Ok(true)
              && (e.action.None? || RunAction(e.action.value, Check(e.cond.value, ctx).0).1.Ok?)
    ensures e.cond.Some? && Check(e.cond.value, ctx).1 == Ok(true) && e.action.Some?
            && RunAction(e.action.value, Check(e.cond.value, ctx).0).1.Err?
            ==> r == RunAction(e.action.value, Check(e.cond.value, ctx).0)
    decreases e
  {
    match e.cond
    case None => (ctx, Ok(false))
    case Some(w) =>
      var (checked, verdict) := Check(w, ctx);
      match verdict
      case Err(err) => (checked, Err(err))
      case Ok(false) => (checked, Ok(false))
      case Ok(true) =>
        match e.action
        case None => (checked, Ok(true))
        case Some(a) =>
          var (acted, res) := RunAction(a, checked);
          if res.Err? then (acted, Err(res.error)) else (acted, Ok(true))
  }

  /** Once a prefix of the entries has failed, nothing after it is evaluated:
      the whole run ends with that prefix's context and error. */
  lemma {:induction false} ErrorIsFinal<C, E>(es: seq<Entry<C, E>>, ctx: C, k: nat)
    requires k <= |es|
    requires RunEntries(es[..k], ctx).1.Err?
    ensures RunEntries(es, ctx) == RunEntries(es[..k], ctx)
    decreases |es|
  {
    if k < |es| {
      var n := |es| - 1;
      assert es[..n][..k] == es[..k];
      ErrorIsFinal(es[..n], ctx, k);
    } else {
      assert es[..k] == es;
    }
  }

  // ---------------------------------------------------------------------------
  // Evaluation, as the library does it: a loop over the entries that threads
  // the context through the callbacks and returns at the first error.
  // ---------------------------------------------------------------------------

  /** Runs a case (`exec` for a case): the context and result are those of the
      evaluation functions above. */
  method ExecGroup<C, E>(g: Group<C, E>, ctx: C) returns (out: C, r: Result<bool, E>)
    ensures (out, r) == RunEntries(g.entries, ctx)
    decreases g, 1
  {
    var changed := false;
    out := ctx;
    var i := 0;
    while i < |g.entries|
      invariant 0 <= i <= |g.entries|
      invariant RunEntries(g.entries[..i], ctx) == (out, Ok(changed))
    {
      var entry := g.entries[i];
      assert g.entries[..i + 1][..i] == g.entries[..i];
      if entry.cond.None? {
        i := i + 1;
        continue;
      }
      var (checked, verdict) := Check(entry.cond.value, out);
      out := checked;
      match verdict {
        case Ok(true) =>
          if entry.action.Some? {
            var acted, res := ExecAction(entry.action.value, out);
            out := acted;
            if res.Err? {
              r := Err(res.error);
              ErrorIsFinal(g.entries, ctx, i + 1);
              return;
            }
          }
          if !changed {
            changed := true;
          }
        case Err(_) =>
          r := verdict;
          ErrorIsFinal(g.entries, ctx, i + 1);
          return;
        case Ok(false) =>
      }
      i := i + 1;
    }
    assert g.entries[..i] == g.entries;
    r := Ok(changed);
  }

  /** Runs an action (the `Execute` capability): a leaf runs its callback, a
      nested case runs its own loop. */
  method ExecAction<C, E>(a: Action<C, E>, ctx: C) returns (out: C, r: Result<bool, E>)
    ensures (out, r) == RunAction(a, ctx)
    decreases a, 0
  {
    match a {
      case Leaf(t) =>
        var ran := ThenClause.Exec(t, ctx);
        out, r := ran.0, ran.1;
      case Nested(nested) =>
        out, r := ExecGroup(nested, ctx);
    }
  }

  // ---------------------------------------------------------------------------
  // The builder object.
  // ---------------------------------------------------------------------------

  /** A case under construction. Each declaration changes the entry list in
      place, as the value-level builder functions above describe. */
  class Case<C, E> {
    var name: string
    var cases: seq<Entry<C, E>>

    /** The case as a value. */
    function Value(): Group<C, E>
      reads this
    {
      Group(name, cases)
    }

    /** A new case holds no entries. */
    constructor (name: string)
      ensures Value() == NewGroup(name)
      ensures this.name == name && cases == []
    {
      this.name := name;
      cases := [];
    }

    /** Declares a condition. */
    method When(name: string, f: WhenFn<C, E>)
      modifies this
      ensures Value() == WithWhen(old(Value()), name, f)
      ensures cases == old(cases) + [Entry(Some(WhenClause.When(name, f)), None)]
    {
      cases := cases + [Entry(Some(WhenClause.When(name, f)), None)];
    }

    /** Declares a leaf action for the most recent condition. */
    method Then(name: string, f: ThenFn<C, E>)
      modifies this
      ensures Value() == WithThen(old(Value()), name, f)
    {
      PushAction(Leaf(ThenClause.Then(name, f)));
    }

    /** Declares a nested case for the most recent condition, built by `build`
      from a fresh case carrying the given label. */
    method ThenCase(name: string, build: Group<C, E> -> Group<C, E>)
      modifies this
      ensures Value() == WithThenCase(old(Value()), name, build)
    {
      var empty := new Case<C, E>(name);
      var nested := build(empty.Value());
      PushAction(Nested(nested));
    }

    /** Overwrites the action slot of the last entry, if there is one. */
    method PushAction(act: Action<C, E>)
      modifies this
      ensures Value() == WithAction(old(Value()), act)
      ensures name == old(name)
    {
      if |cases| > 0 {
        var last := |cases| - 1;
        cases := cases[last := cases[last].(action := Some(act))];
      }
    }

    /** Runs all declared clauses against the context. */
    method Run(ctx: C) returns (out: C, r: Result<bool, E>)
      ensures (out, r) == RunEntries(cases, ctx)
    {
      out, r := ExecGroup(Value(), ctx);
    }
  }
}
