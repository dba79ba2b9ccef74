# tweak — a verified model of a when/then rule evaluator

`tweak` is a small Rust library for conditional, side-effecting rules. A caller
declares a *case*: an ordered list of clauses. Each clause pairs a condition
callback ("when") with an action, which is either a leaf callback ("then") or a whole
nested case. The caller then runs the case once against a mutable context.
The run checks conditions strictly in declaration order. It runs the action of
every condition that holds and stops at the first error, which it returns
unchanged. Otherwise it reports whether any condition held.

This project models that library in Dafny:

| file | module | models |
|---|---|---|
| `lib.dfy` | `Tweak` | `Result`, `Option`, and the callback shapes `WhenFn` / `ThenFn` (src/lib.rs) |
| `when.dfy` | `WhenClause` | the condition clause and `check` (src/when.rs) |
| `then.dfy` | `ThenClause` | the leaf action and its `exec` (src/then.rs) |
| `case.dfy` | `CaseGroup` | the rule structure, the builder (class `Case`), the evaluation functions and the loop that implements `exec` (src/case.rs, and the `Execute` trait of src/lib.rs) |
| `case_properties.dfy` | `CaseProperties` | lemmas about the builder and the evaluator |
| `scenarios.dfy` | `Scenarios` | the unit tests of src/case.rs and the documentation example of src/lib.rs, built with the builder and evaluated with `Run`; their outcomes are proved |

How the model is set up:

- A callback receives `&mut C`, so it is a total function `C -> (C, Result<_, E>)`.
  It returns the context as the callback left it, with its verdict. A condition
  that changes the context is therefore modelled faithfully.
- The context type `C` and the error type `E` are type parameters. The library
  never inspects either.
- The rule structure is a value: `Group(name, entries)`, where each entry is
  `Entry(cond: Option<When>, action: Option<Action>)` and
  `Action = Leaf(Then) | Nested(Group)`. This closed union stands for the
  `Execute` trait object. Nesting to any depth is structural, so evaluation
  terminates by structural recursion.
- The builder is the class `Case`. Its fields are `name` and `cases: seq<Entry>`.
  `When` appends to `cases` in place. `Then` and `ThenCase` go through
  `PushAction`, which overwrites the action slot of the last entry. Each method
  is specified by a value-level function (`WithWhen`, `WithAction`, `WithThen`,
  `WithThenCase`). A `then_case` builder function is modelled as a function
  `Group -> Group`. It receives the value of a freshly constructed `Case` with
  the given label, and it can use those same value-level functions.
- Evaluation is specified by `RunEntries`, `RunEntry` and `RunAction`.
  `ExecGroup` is the library's `for` loop: it threads the context, keeps the
  `changed` flag and returns at the first error. It is proved to compute exactly
  what `RunEntries` specifies.

Points where the behaviour may surprise a reader; the model follows the code:

- The doc comments of `then` and `then_case` (src/case.rs:36 and src/case.rs:45)
  say the action runs when a block "returns `false`". The code runs the action
  when the condition returns `Ok(true)` (src/case.rs:77-80).
- A condition that holds counts as a change even when its entry has no action.
  It also counts when its action is a nested case whose own run returned
  `Ok(false)`, because that boolean is discarded (src/case.rs:79-83).

## Model

| member | source | states |
|---|---|---|
| `WhenClause.Check` | src/when.rs:17-19 | checking a condition is one call of its callback on the live context: the verdict (`Ok(b)` or `Err(e)`) and the context changes reach the caller unchanged |
| `WhenClause.CheckIgnoresName` | src/when.rs:3-15 | the stored label has no effect on checking |
| `ThenClause.Exec` | src/then.rs:18-24 | the context is what the callback left; the result is `Ok(true)` iff the callback succeeded, never `Ok(false)`; a callback error `e` comes back as the same `e` |
| `ThenClause.ExecIgnoresName` | src/then.rs:3-15 | the stored label has no effect on running a leaf action |
| `CaseGroup.WithWhen` | src/case.rs:28-34 | declaring a condition adds exactly one entry `(Some(condition), None)` after all earlier entries, which are unchanged, and keeps the label |
| `CaseGroup.WithAction` | src/case.rs:56-60 | only the action slot of the last entry changes, to the new action; its condition and all other entries are kept; with no entries the case is returned as it was |
| `CaseGroup.WithThen` | src/case.rs:37-43 | the last entry's action becomes the leaf action built from the label and callback; no-op on a case without entries |
| `CaseGroup.WithThenCase` | src/case.rs:46-54 | the last entry's action becomes the nested case that the builder function returns when given a fresh empty case with the given label; no-op without entries |
| `CaseGroup.RunAction` | src/lib.rs:73-75 | the `Execute` dispatch: a leaf action reports the context its callback left, never `Ok(false)`, and passes the callback's error through unchanged (src/then.rs:18-24); a nested case is evaluated as a whole, so an empty one gives `Ok(false)` and the context untouched (src/case.rs:68-69) |
| `CaseGroup.RunEntries` | src/case.rs:70-90 | one evaluation of a case's entries in declaration order; no entries, or only entries without a condition, give `Ok(false)` and leave the context untouched |
| `CaseGroup.RunEntry` | src/case.rs:73-87 | one iteration of the loop: no condition skips the entry; a condition error comes back exactly as the condition returned it, with its context; `Ok(false)` reports no change; the result is `Ok(true)` iff the condition held and the action, if any, did not fail; an action error comes back exactly as the action returned it |
| `CaseGroup.ErrorIsFinal` | src/case.rs:79-85 | once a prefix of the entries has raised an error, the whole run ends with that prefix's context and error |
| `CaseGroup.ExecGroup` | src/case.rs:68-91 | the loop returns exactly the context and result that `RunEntries` specifies for the group's entries |
| `CaseGroup.ExecAction` | src/lib.rs:73-75 | executing an action (leaf or nested case, one shared signature) returns exactly the context and result that `RunAction` specifies |
| `CaseGroup.Case.constructor` | src/case.rs:20-25 | a new case has the given label and no entries |
| `CaseGroup.Case.When` | src/case.rs:28-34 | the entry list becomes the old list followed by `(Some(condition), None)` |
| `CaseGroup.Case.Then` | src/case.rs:37-43 | the case becomes `WithThen` of the old case |
| `CaseGroup.Case.ThenCase` | src/case.rs:46-54 | the builder function receives the value of a freshly constructed case; the result is `WithThenCase` of the old case |
| `CaseGroup.Case.PushAction` | src/case.rs:56-60 | the case becomes `WithAction` of the old case; the label is unchanged |
| `CaseGroup.Case.Run` | src/case.rs:63-65 | running a case gives the context and result that `RunEntries` specifies for its entries |
| `CaseProperties.ActionLastWins` | src/case.rs:56-60 | attaching two actions in a row leaves the same case as attaching only the second |
| `CaseProperties.ThenLastWins` | src/case.rs:37-43 | two `then` calls after one `when` leave only the second action attached |
| `CaseProperties.WhenThenPairs` | src/case.rs:28-43 | `when` followed by `then` adds exactly one entry pairing that condition with that action |
| `CaseProperties.BuilderKeepsConditions` | src/case.rs:20-60 | a new case, and every `when` or action attachment on a case whose entries all have conditions, yields a case whose entries all have conditions |
| `CaseProperties.EmptyCaseChangesNothing` | src/case.rs:70-90 | a new (empty) case runs to `Ok(false)` and leaves the context untouched |
| `CaseProperties.RunAppend` | src/case.rs:72-88 | evaluating `es1 + es2` evaluates `es1`, then, unless it failed, `es2` on the context `es1` left; the change flags are or-ed; an error in `es1` is the final result |
| `CaseProperties.StepInOrder` | src/case.rs:72-88 | entry `k` is evaluated on the context left by entries `0..k`, and only if they raised no error |
| `CaseProperties.ConditionErrorAborts` | src/case.rs:76-85 | if the condition of entry `k` returns `Err(e)`, the run returns exactly `Err(e)`; its action and all later entries are skipped, so the context is the one that condition left |
| `CaseProperties.ActionErrorAborts` | src/case.rs:77-80 | if entry `k`'s condition holds and its action returns `Err(e)`, the run returns exactly `Err(e)` with the context that action left; no later entry runs |
| `CaseProperties.UnconditionedEntrySkipped` | src/case.rs:73-75 | an entry without a condition is skipped: no change to the context, no change reported |
| `CaseProperties.HeldConditionReportsChange` | src/case.rs:77-84 | a held condition whose action succeeds reports a change whatever boolean the action returned, including `Ok(false)` from a nested case |
| `CaseProperties.ChangedIffSomeConditionHeld` | src/case.rs:70-90 | a run returns `Ok(true)` iff it raised no error and some entry's condition returned `Ok(true)` on the context left by the earlier entries; it returns `Ok(false)` iff it raised no error and no condition held |
| `CaseProperties.RunIgnoresLabels` | src/case.rs:5-7 | blanking every label of cases, conditions and actions (recursively) leaves the run's context and result unchanged |
| `CaseProperties.EntryIgnoresLabels` | src/when.rs:4-5 | the same for one entry, whose condition label is never read |
| `CaseProperties.ActionIgnoresLabels` | src/then.rs:4-5 | the same for one action, whose label is never read |
| `Scenarios.CascadeWhenError` | src/case.rs:107-120 | a failing condition yields `Err("when error")`, and its action (which would set 5) never runs: the context stays 0 |
| `Scenarios.CascadeThenError` | src/case.rs:122-132 | a held condition with a failing action yields `Err("then error")` and the context stays 0 |
| `Scenarios.MultiplyCase` | src/case.rs:137-147 | the builder calls of the two multiplication tests give two entries `x == 3 -> x *= 3` and `x == 5 -> x *= 5` |
| `Scenarios.ContextMutation` | src/case.rs:134-152 | from 5, `x == 3` fails, `x == 5` fires, and the run ends with `Ok(true)` and 25 |
| `Scenarios.SetToRuns` | src/case.rs:159-171 | each nested case of the nested test runs to `Ok(true)` and sets the context to its constant |
| `Scenarios.SetTo` | src/case.rs:159-171 | the builder function of each nested test case adds exactly one entry after the fresh case's entries: an always-true check whose action sets the context to the constant |
| `Scenarios.NestedCase` | src/case.rs:157-171 | the builder calls of the nested test attach the two nested cases to their conditions |
| `Scenarios.NestedCases` | src/case.rs:154-176 | from 5, only the case nested under `x == 5` runs: `Ok(true)` and 55 |
| `Scenarios.WhenNothingIsChanged` | src/case.rs:178-196 | from 1, no condition holds: `Ok(false)` and the context stays 1 |
| `Scenarios.TweakXRuns` | src/lib.rs:35-46 | in the nested "tweak x" case, from (5, 0), `x == 5` triples x to 15; then `x > 10` sees 15 and sets x to 10; the result is `Ok(true)` |
| `Scenarios.TweakX` | src/lib.rs:35-46 | the "tweak x" builder function adds two entries: `x == 5` with "multiply x by 3", then `x > 10` with "set x to 10" |
| `Scenarios.TweakY` | src/lib.rs:47-54 | the "tweak y" builder function adds one entry: `y > 0` with "divide 10 by y"; where Rust would panic on y == 0, the modelled callback returns an error instead |
| `Scenarios.CoordsCase` | src/lib.rs:33-54 | the builder calls of the documentation example attach "tweak x" under `x > 0` and "tweak y" under `y > 0` |
| `Scenarios.DocExample` | src/lib.rs:32-59 | from (5, 0), the run returns `Ok(true)` and ends at (10, 0); `y > 0` is false, so the division in "tweak y" is never reached |

## Left out

- Labels are kept as strings but never read; `RunIgnoresLabels` proves that evaluation does not depend on them.
- Rust ownership (the `mut self -> Self` move-and-return builder, `Box<dyn Execute>`, `'static` bounds, `Into<String>`) becomes a class over a `seq` of entries and a datatype of actions.
- The `Execute` trait becomes the closed union `Action = Leaf | Nested` with one dispatching method, `ExecAction`.
- A `then_case` builder function (`FnOnce(Case) -> Case`) becomes a total function `Group -> Group`. A closure that captures and changes outside state, or panics, is not modelled.
- Callbacks are Rust `fn` pointers, which could loop forever or read and write state outside the context (statics, I/O). The total function `C -> (C, Result)` rules out both: a callback here always returns, and its only effect is on the context.
- Panics are not modelled. The documentation example's `10 / ctx.y` would panic on zero; its model callback returns an error instead, so a run that ends without error shows the division was never reached.
- The test callbacks compute on `i32`; the model uses unbounded `int`. No test value comes near overflow. For the positive dividend 10, Dafny's division agrees with Rust's truncating division.
- examples/usage.rs repeats the documentation example verbatim, which `Scenarios.DocExample` models; it has no logic of its own.
- There is no I/O, concurrency or floating point in the library.
