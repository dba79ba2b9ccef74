/** Properties of the case builder and evaluator (src/case.rs). */
module CaseProperties {
  import opened Tweak
  import opened WhenClause
  import opened ThenClause
  import opened CaseGroup

  // ---------------------------------------------------------------------------
  // Builder
  // ---------------------------------------------------------------------------

  /** Attaching twice to the same entry keeps only the second action. */
  lemma ActionLastWins<C, E>(g: Group<C, E>, first: Action<C, E>, second: Action<C, E>)
    ensures WithAction(WithAction(g, first), second) == WithAction(g, second)
  {
  }

  /** Two `then` calls in a row after one `when`: only the second action is attached. */
  lemma ThenLastWins<C, E>(g: Group<C, E>, n1: string, f1: ThenFn<C, E>, n2: string, f2: ThenFn<C, E>)
    ensures WithThen(WithThen(g, n1, f1), n2, f2) == WithThen(g, n2, f2)
  {
  }

  /** A `when` followed by a `then` adds exactly one entry pairing the two. */
  lemma WhenThenPairs<C, E>(g: Group<C, E>, wn: string, w: WhenFn<C, E>, tn: string, t: ThenFn<C, E>)
    ensures WithThen(WithWhen(g, wn, w), tn, t).entries
            == g.entries + [Entry(Some(When(wn, w)), Some(Leaf(Then(tn, t))))]
  {
  }

  /** Every entry has a condition; the builder only ever produces such cases. */
  ghost predicate AllConditioned<C, E>(g: Group<C, E>)
  {
    forall i :: 0 <= i < |g.entries| ==> g.entries[i].cond.Some?
  }

  lemma BuilderKeepsConditions<C, E>(g: Group<C, E>, name: string, f: WhenFn<C, E>, a: Action<C, E>)
    requires AllConditioned(g)
    ensures AllConditioned(NewGroup<C, E>(name))
    ensures AllConditioned(WithWhen(g, name, f))
    ensures AllConditioned(WithAction(g, a))
  {
  }

  // ---------------------------------------------------------------------------
  // Evaluation: order and short-circuit
  // ---------------------------------------------------------------------------

  /** An empty case reports no change and leaves the context alone. */
  lemma EmptyCaseChangesNothing<C, E>(name: string, ctx: C)
    ensures RunEntries(NewGroup<C, E>(name).entries, ctx) == (ctx, Ok(false))
  {
  }

  /** Entries run strictly in declaration order: evaluating `es1 + es2` is
      evaluating `es1`, then, unless it failed, `es2` on the context `es1` left;
      the run reports a change if either part did. */
  lemma {:induction false} RunAppend<C, E>(es1: seq<Entry<C, E>>, es2: seq<Entry<C, E>>, ctx: C)
    ensures RunEntries(es1 + es2, ctx) ==
              var (mid, r1) := RunEntries(es1, ctx);
              if r1.Err? then (mid, r1)
              else
                var (end, r2) := RunEntries(es2, mid);
                if r2.Err? then (end, r2) else (end, Ok(r1.value || r2.value))
    decreases |es2|
  {
    if es2 == [] {
      assert es1 + es2 == es1;
    } else {
      var n := |es2| - 1;
      var all := es1 + es2;
      assert all[..|all| - 1] == es1 + es2[..n];
      assert all[|all| - 1] == es2[n];
      RunAppend(es1, es2[..n], ctx);
    }
  }

  /** A one-entry list evaluates as that entry. */
  lemma RunOne<C, E>(e: Entry<C, E>, ctx: C)
    ensures RunEntries([e], ctx) == RunEntry(e, ctx)
  {
  }

  /** Context and result after the first `k` entries. */
  ghost function Before<C, E>(es: seq<Entry<C, E>>, ctx: C, k: nat): (C, Result<bool, E>)
    requires k <= |es|
  {
    RunEntries(es[..k], ctx)
  }

  /** Evaluation of the first `k + 1` entries is that of the first `k` followed
      by entry `k`, which sees the context all earlier clauses left. */
  lemma {:induction false} StepInOrder<C, E>(es: seq<Entry<C, E>>, ctx: C, k: nat)
    requires k < |es|
    ensures Before(es, ctx, k + 1) ==
              var (mid, r1) := Before(es, ctx, k);
              if r1.Err? then (mid, r1)
              else
                var (end, r2) := RunEntry(es[k], mid);
                if r2.Err? then (end, r2) else (end, Ok(r1.value || r2.value))
  {
    assert es[..k + 1][..k] == es[..k];
  }

  /** A condition that fails stops the run at once with exactly its error: its
      action and every later entry are skipped, so the context is the one the
      failing condition left. */
  lemma ConditionErrorAborts<C, E>(es: seq<Entry<C, E>>, ctx: C, k: nat, w: When<C, E>, e: E)
    requires k < |es| && es[k].cond == Some(w)
    requires Before(es, ctx, k).1.Ok?
    requires Check(w, Before(es, ctx, k).0).1 == Err(e)
    ensures RunEntries(es, ctx) == (Check(w, Before(es, ctx, k).0).0, Err(e))
  {
    StepInOrder(es, ctx, k);
    ErrorIsFinal(es, ctx, k + 1);
  }

  /** An action that fails after its condition held stops the run with exactly
      its error; no later entry is evaluated. */
  lemma ActionErrorAborts<C, E>(es: seq<Entry<C, E>>, ctx: C, k: nat, w: When<C, E>, a: Action<C, E>, e: E)
    requires k < |es| && es[k].cond == Some(w) && es[k].action == Some(a)
    requires Before(es, ctx, k).1.Ok?
    requires Check(w, Before(es, ctx, k).0).1 == Ok(true)
    requires RunAction(a, Check(w, Before(es, ctx, k).0).0).1 == Err(e)
    ensures RunEntries(es, ctx) == (RunAction(a, Check(w, Before(es, ctx, k).0).0).0, Err(e))
  {
    StepInOrder(es, ctx, k);
    ErrorIsFinal(es, ctx, k + 1);
  }

  /** An entry with no condition is skipped without touching the context. */
  lemma UnconditionedEntrySkipped<C, E>(action: Option<Action<C, E>>, ctx: C)
    ensures RunEntry(Entry(None, action), ctx) == (ctx, Ok(false))
  {
  }

  /** A held condition whose action succeeded counts as a change, whatever
      boolean the action returned (a nested case may well return `Ok(false)`). */
  lemma HeldConditionReportsChange<C, E>(e: Entry<C, E>, ctx: C, w: When<C, E>, a: Action<C, E>)
    requires e.cond == Some(w) && e.action == Some(a)
    requires Check(w, ctx).1 == Ok(true)
    requires RunAction(a, Check(w, ctx).0).1.Ok?
    ensures RunEntry(e, ctx) == (RunAction(a, Check(w, ctx).0).0, Ok(true))
  {
  }

  // ---------------------------------------------------------------------------
  // Evaluation: the changed flag
  // ---------------------------------------------------------------------------

  /** Entry `k` is reached without error and its condition holds on the
      context the earlier entries left. */
  ghost predicate FiresAt<C, E>(es: seq<Entry<C, E>>, ctx: C, k: nat)
    requires k < |es|
  {
    Before(es, ctx, k).1.Ok? && es[k].cond.Some?
    && Check(es[k].cond.value, Before(es, ctx, k).0).1 == Ok(true)
  }

  /** A run reports `Ok(true)` exactly when it raised no error and some entry's
      condition held, and `Ok(false)` exactly when it raised no error and no
      condition held. Actions and their returned booleans do not enter into it. */
  lemma {:induction false} ChangedIffSomeConditionHeld<C, E>(es: seq<Entry<C, E>>, ctx: C)
    ensures RunEntries(es, ctx).1 == Ok(true)
            <==> RunEntries(es, ctx).1.Ok? && exists k :: 0 <= k < |es| && FiresAt(es, ctx, k)
    ensures RunEntries(es, ctx).1 == Ok(false)
            <==> RunEntries(es, ctx).1.Ok? && forall k :: 0 <= k < |es| ==> !FiresAt(es, ctx, k)
    decreases |es|
  {
    if es != [] {
      var n := |es| - 1;
      var p := es[..n];
      ChangedIffSomeConditionHeld(p, ctx);
      forall k | 0 <= k < n
        ensures FiresAt(es, ctx, k) <==> FiresAt(p, ctx, k)
      {
        assert es[..k] == p[..k];
      }
      assert es[..n] == p;
      var (mid, r1) := RunEntries(p, ctx);
      if r1.Ok? {
        var (end, r2) := RunEntry(es[n], mid);
        assert r2.Ok? ==> (r2.value <==> FiresAt(es, ctx, n));
        if r2.Ok? && r2.value {
          assert FiresAt(es, ctx, n);
        }
        if RunEntries(es, ctx).1 == Ok(true) && !r2.value {
          var k :| 0 <= k < n && FiresAt(p, ctx, k);
          assert FiresAt(es, ctx, k);
        }
      }
    }
  }

  // ---------------------------------------------------------------------------
  // Labels are dead data
  // ---------------------------------------------------------------------------

  /** The same rule structure with every label blanked out. */
  function UnlabelAction<C, E>(a: Action<C, E>): Action<C, E>
    decreases a
  {
    match a
    case Leaf(t) => Leaf(t.(name := ""))
    case Nested(g) => Nested(Group("", UnlabelEntries(g.entries)))
  }

  function UnlabelEntries<C, E>(es: seq<Entry<C, E>>): (r: seq<Entry<C, E>>)
    ensures |r| == |es|
    decreases es
  {
    if es == [] then []
    else UnlabelEntries(es[..|es| - 1]) + [UnlabelEntry(es[|es| - 1])]
  }

  function UnlabelEntry<C, E>(e: Entry<C, E>): Entry<C, E>
    decreases e
  {
    Entry(
      match e.cond case None => None case Some(w) => Some(w.(name := "")),
      match e.action case None => None case Some(a) => Some(UnlabelAction(a)))
  }

  /** Evaluation never depends on the labels of cases, conditions or actions. */
  lemma {:induction false} RunIgnoresLabels<C, E>(es: seq<Entry<C, E>>, ctx: C)
    ensures RunEntries(UnlabelEntries(es), ctx) == RunEntries(es, ctx)
    decreases es
  {
    if es != [] {
      var n := |es| - 1;
      var u := UnlabelEntries(es);
      assert u[..n] == UnlabelEntries(es[..n]);
      assert u[n] == UnlabelEntry(es[n]);
      RunIgnoresLabels(es[..n], ctx);
      var mid := RunEntries(es[..n], ctx).0;
      EntryIgnoresLabels(es[n], mid);
    }
  }

  lemma {:induction false} EntryIgnoresLabels<C, E>(e: Entry<C, E>, ctx: C)
    ensures RunEntry(UnlabelEntry(e), ctx) == RunEntry(e, ctx)
    decreases e
  {
    if e.cond.Some? && e.action.Some? {
      ActionIgnoresLabels(e.action.value, Check(e.cond.value, ctx).0);
    }
  }

  lemma {:induction false} ActionIgnoresLabels<C, E>(a: Action<C, E>, ctx: C)
    ensures RunAction(UnlabelAction(a), ctx) == RunAction(a, ctx)
    decreases a
  {
    match a
    case Leaf(t) =>
    case Nested(g) => RunIgnoresLabels(g.entries, ctx);
  }
}
