# nplusone: a verified model of the N+1 query detection pass

`nplusone` is a `go/analysis` pass. It reports a `database/sql` query, exec or
prepare method that is called inside a `for` or `range` loop, which is the
"N+1 query" pattern. This project models its single real component,
`internal/analyzer/nplusone/analyzer.go`, and proves what that code does.
The model has three parts:

- **Walker** (`walker.dfy`, module `Walker`): the traversal of `run`. `Pass`
  holds the package's files, their type information and the diagnostics
  reported so far. `LoopCallback` is the closure that `run` hands to the
  inspector, together with its mutable `loopDepth` counter. `Inspect` stands
  for `inspector.Nodes` with the node filter of `run`. `Run` is `run` itself.
  All of these are proved to produce `Diagnostics`, a pure recursive
  specification. That specification is then proved equal to a second,
  independent one: "every call in the tree that sits inside a loop, inside
  no other call, and is accepted by the classifier, in pre-order"
  (`Flagged(Occurrences(..))`).
- **Classifier** (`classifier.dfy`, module `Classifier`): `isDBSQLMethodCall`
  as a function, and `pkgPathOfType` as a method with its pointer-stripping
  loop, proved against the function `PkgPath`. The suspect name set and the
  target package are constants.
- **Reporter** (`reporter.dfy`, module `Reporter`): the message and position
  of each finding.

`syntax.dfy` (module `Syntax`) replaces `go/ast` and `go/types` with small
datatypes:
- a tree of `Loop`, `Call` and `Other` nodes;
- a callee that is either a selector (identity, name, name position) or not;
- `TypesInfo`, a map from selector identity to a `Selection` (object and
  receiver type);
- a `Type` that is a pointer, a named type or anything else.

`scenarios.dfy` writes out the four test packages, and one call nested in
another call's argument, as concrete trees, and proves the diagnostics for
each.

Behaviour that follows from the code, and that the model keeps:
- Loop depth counts only ForStmt and RangeStmt. A call anywhere under a loop
  node counts as inside that loop. That includes the init, condition and
  post statements, and the range operand.
- A call that is visited never lets the traversal enter its children. So a
  call in another call's arguments or receiver is never examined, and
  neither is anything inside a function literal passed as an argument. A
  function literal that is not an argument is entered like any other node.
- The source tests `loopDepth <= 0` rather than `== 0`. The model keeps
  `<= 0`. `Visit`'s precondition makes the counter equal to the number of
  loop ancestors at every callback, so it is never negative and the two
  tests agree.

## Model

| member | source | states |
|---|---|---|
| `Classifier.TargetPackage` | internal/analyzer/nplusone/analyzer.go:107 | the one package path both ways of matching compare against, `database/sql` (also line 117) |
| `Classifier.SuspectNames` | internal/analyzer/nplusone/analyzer.go:34-43 | the eight candidate method names: `Query`, `QueryContext`, `QueryRow`, `QueryRowContext`, `Exec`, `ExecContext`, `Prepare`, `PrepareContext` |
| `Classifier.PkgPath` | internal/analyzer/nplusone/analyzer.go:130-146 | the specification of `pkgPathOfType` on values: the path of the named type's package after every pointer is stripped, "" when the type is not named or has no object or package |
| `Classifier.Deref` | internal/analyzer/nplusone/analyzer.go:131-139 | stripping pointers ends at a type that is not a pointer, and the input is exactly that type under `PointerDepth` pointer levels |
| `Classifier.PkgPathOfType` | internal/analyzer/nplusone/analyzer.go:130-146 | the pointer-stripping loop terminates and returns `PkgPath(t)`: the package path of the stripped type if it is named with a package, else "" |
| `Classifier.PkgPathIgnoresPointers` | internal/analyzer/nplusone/analyzer.go:130-146 | wrapping a type in any number of pointers does not change the path |
| `Classifier.PkgPathCases` | internal/analyzer/nplusone/analyzer.go:140-145 | the path is non-empty exactly when the stripped type is a named type whose object has a package with a non-empty path, and then it is that package's path |
| `Classifier.IsDBSQLMethodCall` | internal/analyzer/nplusone/analyzer.go:91-125 | false when the callee is not a selector; false when the selector has no selection entry (package functions such as `sql.Open`); otherwise true exactly when the resolved function is declared in `database/sql` with a suspect name, or the pointer-stripped receiver type is a named `database/sql` type and the selected name is suspect |
| `Classifier.NameOutsideSetNeverMatches` | internal/analyzer/nplusone/analyzer.go:106-124 | a selected name outside the suspect set never matches, given that a selected function's name is the selector's name |
| `Classifier.IndirectReceiverMatches` | internal/analyzer/nplusone/analyzer.go:114-122 | a suspect name selected on any number of pointers to a named `database/sql` type matches |
| `Reporter.MethodMessage` | internal/analyzer/nplusone/analyzer.go:73 | the generic message is exactly the prefix `potential N+1: database/sql method `, then the method name, then the suffix ` called inside a loop`: each of the three slices is fixed, and so is the total length |
| `Reporter.MessagesDiffer` | internal/analyzer/nplusone/analyzer.go:70-76 | neither the generic message nor the non-selector message is ever the prepare message |
| `Reporter.Report` | internal/analyzer/nplusone/analyzer.go:67-77 | a selector call is reported at its method-name token, with the prepare message exactly when the name is `Prepare` or `PrepareContext` and with the generic message naming it otherwise; any other call is reported at its `(` with the message that names no method |
| `Walker.InFilter` | internal/analyzer/nplusone/analyzer.go:27-31 | the callback is invoked for for statements, range statements and call expressions only |
| `Walker.Diagnostics` | internal/analyzer/nplusone/analyzer.go:46-84 | the specification of the walker over a forest: the diagnostics of each node in order, at the loop depth of its position |
| `Walker.NodeDiagnostics` | internal/analyzer/nplusone/analyzer.go:47-83 | one node: a loop raises the depth for its children, a call yields its report when the depth is positive and the classifier accepts it and nothing from below it, any other node passes the depth to its children |
| `Walker.PassMatchesOccurrences` | internal/analyzer/nplusone/analyzer.go:46-84 | the walker's diagnostics equal, in order and number, the reports of the flagged calls: those with at least one loop ancestor, no call ancestor, and classifier acceptance |
| `Walker.NestedNeverFlagged` | internal/analyzer/nplusone/analyzer.go:79-80 | no call below another call is ever flagged |
| `Walker.PassReportsExactly` | internal/analyzer/nplusone/analyzer.go:56-80 | a diagnostic is produced if and only if it is the report of such a call; each one is at a selector's method-name token and never uses the non-selector message of line 76 |
| `Walker.NoLoopNoDiagnostics` | internal/analyzer/nplusone/analyzer.go:61-63 | a forest without loops, visited at depth 0, yields no diagnostics |
| `Walker.DepthBeyondOneIrrelevant` | internal/analyzer/nplusone/analyzer.go:45-63 | once the depth is at least 1, further nesting does not change the diagnostics |
| `Walker.Pass.Reportf` | internal/analyzer/nplusone/analyzer.go:71-76 | reporting appends exactly one diagnostic to the pass |
| `Walker.LoopCallback.constructor` | internal/analyzer/nplusone/analyzer.go:45 | the counter starts at 0 |
| `Walker.LoopCallback.Visit` | internal/analyzer/nplusone/analyzer.go:46-84 | the callback may be called only when the counter equals the number of loop ancestors (one more while leaving a loop). Both loop kinds raise the counter on push and lower it on pop, and continue the traversal. A call never continues it. A call appends one report exactly when it is pushed below a loop and accepted. Nothing else changes |
| `Walker.Inspect` | internal/analyzer/nplusone/analyzer.go:46-84 | the filtered depth-first traversal keeps the counter equal to the number of loop ancestors at every callback, returns it to its starting value, and appends exactly `Diagnostics(ns, loops)` |
| `Walker.InspectNode` | internal/analyzer/nplusone/analyzer.go:46-84 | one node: push the callback for filtered nodes, enter the children when it allows, then pop. The counter returns to its value and `NodeDiagnostics(n, loops)` is appended |
| `Walker.Run` | internal/analyzer/nplusone/analyzer.go:23-87 | `run` appends exactly the specified diagnostics for all files, starting from depth 0 |
| `Walker.Analyze` | internal/analyzer/nplusone/analyzer.go:23-87 | analysing a package yields exactly the reports of its flagged calls, in pre-order |
| `Scenarios.ScenarioA` | internal/analyzer/nplusone/testdata/src/a/a.go:9-13 | one diagnostic at `QueryRowContext` (line 12, column 10), with the literal message `potential N+1: database/sql method QueryRowContext called inside a loop` that the test expects |
| `Scenarios.ScenarioB` | internal/analyzer/nplusone/testdata/src/b/b.go:9-11 | the call is accepted by the classifier, yet outside any loop it yields no diagnostic |
| `Scenarios.ScenarioC` | internal/analyzer/nplusone/testdata/src/c/c.go:9-17 | one diagnostic at `ExecContext` on a `*sql.Tx` (line 12, column 19), inside an `if` init statement in a range loop, with the literal message `potential N+1: database/sql method ExecContext called inside a loop` that the test expects |
| `Scenarios.ScenarioD` | internal/analyzer/nplusone/testdata/src/d/d.go:6-11 | the package function `sql.Open` in a loop yields no diagnostic |
| `Scenarios.ScenarioNestedInArgument` | internal/analyzer/nplusone/analyzer.go:79-80 | a suspect call in another call's argument, inside a loop, yields no diagnostic |

## Left out

- The `analysis.Analyzer` value and the `inspect.Analyzer` dependency (analyzer.go:14-21, 24) are framework wiring.
- `cmd/nplusone/main.go` is process entry through `singlechecker.Main` and is not part of this model. The same goes for the test driver `analyzer_test.go`; its test packages appear only as the scenarios.
- `go/ast`, `go/types` and `types.Selection` are foreign libraries. They appear only as the datatypes of `Syntax`:
  - which subtrees a Go node has is left to whoever builds the tree;
  - `Obj()` and `Recv()` are fields;
  - `n.Obj() != nil` and `n.Obj().Pkg() != nil` are absent `Option`s;
  - aliases, interfaces and every other non-pointer, non-named type are `OtherType`.
- `inspector.Nodes` is modelled by its documented behaviour, as the recursive `Inspect`. The model does not use its precomputed event array or its skipping of subtrees that contain no filtered node. Neither changes which callbacks run.
- `token.Pos` values are abstract naturals. `pass.Reportf`'s `%s` formatting is string concatenation. The driver's printing and exit code are not modelled.
- Concurrent analysis of several packages by the driver is not modelled: each `Pass` is independent.
- Go's `int` overflow of `loopDepth` is not modelled. The counter is bounded by the nesting depth of the tree.
- Classifier.NameOutsideSetNeverMatches: does not prove that a resolved method's name always equals the selector's name. It takes this go/types guarantee as the precondition `NamesAgree`. The classifier itself does not rely on it.
