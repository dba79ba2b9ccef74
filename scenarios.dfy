/** The library's own examples: the unit tests of src/case.rs (context: one
    integer `x`, errors: strings) and the documentation example of src/lib.rs
    (context: two integers), built with the builder and evaluated with `Run`;
    their outcomes are proved. */
module Scenarios {
  import opened Tweak
  import opened CaseGroup
  import opened CaseProperties

  /** A condition that fails: its action never runs, the context stays 0. */
  method CascadeWhenError() returns (res: Result<bool, string>, x: int)
    ensures res == Err("when error") && x == 0
  {
    var c := new Case<int, string>("errored case");
    c.When("check", (ctx: int) => (ctx, Err("when error")));
    c.Then("action", (ctx: int) => (5, Err("when error")));
    x, res := c.Run(0);
  }

  /** A held condition whose action fails: the action's error is the result. */
  method CascadeThenError() returns (res: Result<bool, string>, x: int)
    ensures res == Err("then error") && x == 0
  {
    var c := new Case<int, string>("errored case");
    c.When("check", (ctx: int) => (ctx, Ok(true)));
    c.Then("check", (ctx: int) => (ctx, Err("then error")));
    x, res := c.Run(0);
  }

  /** A two-entry run is its first entry followed, unless it failed, by its second. */
  lemma RunTwo<C, E>(es: seq<Entry<C, E>>, ctx: C)
    requires |es| == 2
    ensures RunEntries(es, ctx) ==
              var (mid, r1) := RunEntry(es[0], ctx);
              if r1.Err? then (mid, r1)
              else
                var (end, r2) := RunEntry(es[1], mid);
                if r2.Err? then (end, r2) else (end, Ok(r1.value || r2.value))
  {
    assert es == [es[0]] + [es[1]];
    RunAppend([es[0]], [es[1]], ctx);
    RunOne(es[0], ctx);
    RunOne(es[1], RunEntry(es[0], ctx).0);
  }

  /** The case shared by two tests: "is 3" triples, "is 5" multiplies by 5. */
  method MultiplyCase() returns (c: Case<int, string>)
    ensures |c.cases| == 2
    ensures c.cases[0].cond.Some? && c.cases[1].cond.Some?
    ensures c.cases[0].action.Some? && c.cases[0].action.value.Leaf?
    ensures c.cases[1].action.Some? && c.cases[1].action.value.Leaf?
    ensures forall n: int :: c.cases[0].cond.value.f(n) == (n, Ok(n == 3))
    ensures forall n: int :: c.cases[1].cond.value.f(n) == (n, Ok(n == 5))
    ensures forall n: int :: c.cases[0].action.value.leaf.f(n) == (n * 3, Ok(()))
    ensures forall n: int :: c.cases[1].action.value.leaf.f(n) == (n * 5, Ok(()))
  {
    c := new Case<int, string>("errored case");
    c.When("is 3", (ctx: int) => (ctx, Ok(ctx == 3)));
    c.Then("multiply by 3", (ctx: int) => (ctx * 3, Ok(())));
    c.When("is 5", (ctx: int) => (ctx, Ok(ctx == 5)));
    c.Then("multiply by 5", (ctx: int) => (ctx * 5, Ok(())));
  }

  /** Starting from 5: "is 3" does not hold, "is 5" does and multiplies by 5. */
  method ContextMutation() returns (res: Result<bool, string>, x: int)
    ensures res == Ok(true) && x == 25
  {
    var c := MultiplyCase();
    x, res := c.Run(5);
    RunTwo(c.cases, 5);
    assert RunEntry(c.cases[0], 5) == (5, Ok(false));
    assert RunEntry(c.cases[1], 5) == (25, Ok(true));
  }

  /** The nested case of the `nested_cases` test: an always-true check whose
      action sets the context to `value`. */
  function SetTo(value: int, sub: Group<int, string>): (r: Group<int, string>)
    ensures r.name == sub.name
    ensures |r.entries| == |sub.entries| + 1 && r.entries[..|sub.entries|] == sub.entries
    ensures r.entries[|sub.entries|].cond.Some?
    ensures forall n: int :: r.entries[|sub.entries|].cond.value.f(n) == (n, Ok(true))
    ensures r.entries[|sub.entries|].action.Some? && r.entries[|sub.entries|].action.value.Leaf?
    ensures forall n: int :: r.entries[|sub.entries|].action.value.leaf.f(n) == (value, Ok(()))
  {
    WithThen(WithWhen(sub, "check", (ctx: int) => (ctx, Ok(true))),
             "action", (ctx: int) => (value, Ok(())))
  }

  lemma SetToRuns(value: int, name: string, ctx: int)
    ensures RunEntries(SetTo(value, Group(name, [])).entries, ctx) == (value, Ok(true))
  {
  }

  method NestedCase() returns (c: Case<int, string>)
    ensures |c.cases| == 2
    ensures c.cases[0].cond.Some? && c.cases[1].cond.Some?
    ensures forall n: int :: c.cases[0].cond.value.f(n) == (n, Ok(n == 3))
    ensures forall n: int :: c.cases[1].cond.value.f(n) == (n, Ok(n == 5))
    ensures c.cases[0].action == Some(Nested(SetTo(33, Group("nested 3", []))))
    ensures c.cases[1].action == Some(Nested(SetTo(55, Group("nested 5", []))))
  {
    c := new Case<int, string>("errored case");
    c.When("is 3", (ctx: int) => (ctx, Ok(ctx == 3)));
    c.ThenCase("nested 3", (sub: Group<int, string>) => SetTo(33, sub));
    c.When("is 5", (ctx: int) => (ctx, Ok(ctx == 5)));
    c.ThenCase("nested 5", (sub: Group<int, string>) => SetTo(55, sub));
  }

  /** Nested cases as actions: only the one under "is 5" runs and sets 55. */
  method NestedCases() returns (res: Result<bool, string>, x: int)
    ensures res == Ok(true) && x == 55
  {
    var c := NestedCase();
    x, res := c.Run(5);
    RunTwo(c.cases, 5);
    assert RunEntry(c.cases[0], 5) == (5, Ok(false));
    SetToRuns(55, "nested 5", 5);
    assert RunEntry(c.cases[1], 5) == (55, Ok(true));
  }

  /** Starting from 1 no condition holds: no change, the context stays 1. */
  method WhenNothingIsChanged() returns (res: Result<bool, string>, x: int)
    ensures res == Ok(false) && x == 1
  {
    var c := MultiplyCase();
    x, res := c.Run(1);
    RunTwo(c.cases, 1);
    assert RunEntry(c.cases[0], 1) == (1, Ok(false));
    assert RunEntry(c.cases[1], 1) == (1, Ok(false));
  }

  /** The context of the documentation example. */
  datatype XY = XY(x: int, y: int)

  /** The "tweak x" nested case: 5 is tripled, then anything above 10 becomes 10. */
  function TweakX(sub: Group<XY, string>): (r: Group<XY, string>)
    ensures r.name == sub.name
    ensures |r.entries| == |sub.entries| + 2 && r.entries[..|sub.entries|] == sub.entries
    ensures r.entries[|sub.entries|].cond.Some? && r.entries[|sub.entries| + 1].cond.Some?
    ensures forall v: XY :: r.entries[|sub.entries|].cond.value.f(v) == (v, Ok(v.x == 5))
    ensures forall v: XY :: r.entries[|sub.entries| + 1].cond.value.f(v) == (v, Ok(v.x > 10))
    ensures r.entries[|sub.entries|].action.Some? && r.entries[|sub.entries|].action.value.Leaf?
    ensures r.entries[|sub.entries| + 1].action.Some? && r.entries[|sub.entries| + 1].action.value.Leaf?
    ensures forall v: XY :: r.entries[|sub.entries|].action.value.leaf.f(v) == (XY(v.x * 3, v.y), Ok(()))
    ensures forall v: XY :: r.entries[|sub.entries| + 1].action.value.leaf.f(v) == (XY(10, v.y), Ok(()))
  {
    var tripled := WithThen(WithWhen(sub, "x == 5", (c: XY) => (c, Ok(c.x == 5))),
                            "multiply x by 3", (c: XY) => (c.(x := c.x * 3), Ok(())));
    WithThen(WithWhen(tripled, "when x > 10", (c: XY) => (c, Ok(c.x > 10))),
             "set x to 10", (c: XY) => (c.(x := 10), Ok(())))
  }

  /** The "tweak y" nested case. Dividing by zero would panic; here it is an
      error instead, so a run without error shows it was never reached with y == 0.
      For the positive dividend 10, Dafny's division agrees with the truncating one. */
  function TweakY(sub: Group<XY, string>): (r: Group<XY, string>)
    ensures r.name == sub.name
    ensures |r.entries| == |sub.entries| + 1 && r.entries[..|sub.entries|] == sub.entries
    ensures r.entries[|sub.entries|].cond.Some?
    ensures forall v: XY :: r.entries[|sub.entries|].cond.value.f(v) == (v, Ok(v.y > 0))
    ensures r.entries[|sub.entries|].action.Some? && r.entries[|sub.entries|].action.value.Leaf?
    ensures forall v: XY :: v.y != 0 ==>
              r.entries[|sub.entries|].action.value.leaf.f(v) == (XY(v.x, 10 / v.y), Ok(()))
    ensures forall v: XY :: v.y == 0 ==>
              r.entries[|sub.entries|].action.value.leaf.f(v) == (v, Err("attempt to divide by zero"))
  {
    WithThen(WithWhen(sub, "y > 0", (c: XY) => (c, Ok(c.y > 0))),
             "divide 10 by y",
             (c: XY) => if c.y == 0 then (c, Err("attempt to divide by zero"))
                        else (c.(y := 10 / c.y), Ok(())))
  }

  lemma TweakXRuns(name: string)
    ensures RunEntries(TweakX(Group(name, [])).entries, XY(5, 0)) == (XY(10, 0), Ok(true))
  {
    var es := TweakX(Group(name, [])).entries;
    RunTwo(es, XY(5, 0));
    assert RunEntry(es[0], XY(5, 0)) == (XY(15, 0), Ok(true));
    assert RunEntry(es[1], XY(15, 0)) == (XY(10, 0), Ok(true));
  }

  method CoordsCase() returns (c: Case<XY, string>)
    ensures |c.cases| == 2
    ensures c.cases[0].cond.Some? && c.cases[1].cond.Some?
    ensures forall v: XY :: c.cases[0].cond.value.f(v) == (v, Ok(v.x > 0))
    ensures forall v: XY :: c.cases[1].cond.value.f(v) == (v, Ok(v.y > 0))
    ensures c.cases[0].action == Some(Nested(TweakX(Group("tweak x", []))))
    ensures c.cases[1].action == Some(Nested(TweakY(Group("tweak y", []))))
  {
    c := new Case<XY, string>("coords");
    c.When("x > 0", (ctx: XY) => (ctx, Ok(ctx.x > 0)));
    c.ThenCase("tweak x", TweakX);
    c.When("y > 0", (ctx: XY) => (ctx, Ok(ctx.y > 0)));
    c.ThenCase("tweak y", TweakY);
  }

  /** From (5, 0): "tweak x" turns 5 into 15 and then 10; "tweak y" never runs. */
  method DocExample() returns (res: Result<bool, string>, xy: XY)
    ensures res == Ok(true) && xy == XY(10, 0)
  {
    var c := CoordsCase();
    xy, res := c.Run(XY(5, 0));
    RunTwo(c.cases, XY(5, 0));
    TweakXRuns("tweak x");
    assert RunEntry(c.cases[0], XY(5, 0)) == (XY(10, 0), Ok(true));
    assert RunEntry(c.cases[1], XY(10, 0)) == (XY(10, 0), Ok(false));
  }
}
