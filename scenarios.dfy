/** The four test packages of the analyzer (a, b, c, d), and one call nested
    in another call's arguments, written as trees with their type information,
    and the diagnostics the pass produces for them. Positions are written as
    `At(line, column)`. */
module Scenarios {
  import opened Syntax
  import opened Classifier
  import opened Reporter
  import opened Walker

  function At(line: nat, column: nat): Pos
  {
    line * 1000 + column
  }

  /** An identifier or literal: no subtrees of interest. */
  const Leaf: Node := Other([])

  function SqlType(name: string): Type
  {
    Named(Some(TypeName(name, Some(TargetPackage))))
  }

  /** Type information in which selector 1 selects method `name` of the
      database/sql type `recvName`, through a pointer receiver. */
  function MethodInfo(name: string, recvName: string): TypesInfo
  {
    TypesInfo(map[1 := Selection(Func(name, Some(TargetPackage)), Some(Pointer(SqlType(recvName))))])
  }

  /** `recv.name(args...)` with selector 1. */
  function MethodCall(name: string, namePos: Pos, lparen: Pos, args: nat): Node
  {
    Call(CallExpr(Selector(1, name, namePos), lparen), seq(args + 1, _ => Leaf))
  }

  /** Unfolding `Diagnostics` over short sequence displays. */
  lemma Two(a: Node, b: Node, depth: int, info: TypesInfo)
    ensures Diagnostics([a, b], depth, info) == NodeDiagnostics(a, depth, info) + NodeDiagnostics(b, depth, info)
  {
    assert [a, b][1..] == [b];
    DiagnosticsSingle(b, depth, info);
  }

  lemma Three(a: Node, b: Node, c: Node, depth: int, info: TypesInfo)
    ensures Diagnostics([a, b, c], depth, info)
         == NodeDiagnostics(a, depth, info) + NodeDiagnostics(b, depth, info) + NodeDiagnostics(c, depth, info)
  {
    assert [a, b, c][1..] == [b, c];
    Two(b, c, depth, info);
  }

  lemma Four(a: Node, b: Node, c: Node, e: Node, depth: int, info: TypesInfo)
    ensures Diagnostics([a, b, c, e], depth, info)
         == NodeDiagnostics(a, depth, info) + NodeDiagnostics(b, depth, info)
          + NodeDiagnostics(c, depth, info) + NodeDiagnostics(e, depth, info)
  {
    assert [a, b, c, e][1..] == [b, c, e];
    Three(b, c, e, depth, info);
  }

  /** testdata/src/a: `db.QueryRowContext(ctx, "SELECT 1")` in a range loop,
      `db` a `*sql.DB`. */
  const CallA: Node := MethodCall("QueryRowContext", At(12, 10), At(12, 25), 2)
  const LoopA: Node :=
    Loop(RangeStmt, [Leaf, Leaf, Leaf,        // for _, id := range ids
      Other([
        Other([Leaf, Leaf]),                  //   _ = id
        Other([Leaf, CallA])                  //   _ = db.QueryRowContext(ctx, "SELECT 1")
      ])])
  const PackageA: seq<Node> := [
    Other([                                   // func positive(db, ctx, ids)
      Other([Leaf, Leaf, Leaf]),              //   parameters
      Other([LoopA])])]                       //   body

  lemma ScenarioA()
    ensures Diagnostics(PackageA, 0, MethodInfo("QueryRowContext", "DB"))
         == [Diagnostic(At(12, 10),
              "potential N+1: database/sql method " + "QueryRowContext" + " called inside a loop")]
  {
    var info := MethodInfo("QueryRowContext", "DB");
    assert IsDBSQLMethodCall(info, CallA.expr, SuspectNames);
    Two(Leaf, CallA, 1, info);
    Two(Leaf, Leaf, 1, info);
    Two(Other([Leaf, Leaf]), Other([Leaf, CallA]), 1, info);
    Four(Leaf, Leaf, Leaf, LoopA.children[3], 1, info);
    DiagnosticsSingle(LoopA, 0, info);
    Three(Leaf, Leaf, Leaf, 0, info);
    Two(Other([Leaf, Leaf, Leaf]), Other([LoopA]), 0, info);
    DiagnosticsSingle(PackageA[0], 0, info);
  }

  /** testdata/src/b: the same call with no loop around it. */
  const CallB: Node := MethodCall("QueryRowContext", At(10, 9), At(10, 24), 2)
  const PackageB: seq<Node> := [
    Other([                                   // func negativeOutsideLoop(db, ctx)
      Other([Leaf, Leaf]),
      Other([Other([Leaf, CallB])])])]        //   _ = db.QueryRowContext(ctx, "SELECT 1")

  lemma ScenarioB()
    ensures IsDBSQLMethodCall(MethodInfo("QueryRowContext", "DB"), CallB.expr, SuspectNames)
    ensures Diagnostics(PackageB, 0, MethodInfo("QueryRowContext", "DB")) == []
  {
    var info := MethodInfo("QueryRowContext", "DB");
    assert IsDBSQLMethodCall(info, CallB.expr, SuspectNames);
    Two(Leaf, CallB, 0, info);
    DiagnosticsSingle(Other([Leaf, CallB]), 0, info);
    Two(Leaf, Leaf, 0, info);
    Two(Other([Leaf, Leaf]), PackageB[0].children[1], 0, info);
    DiagnosticsSingle(PackageB[0], 0, info);
  }

  /** testdata/src/c: `tx.ExecContext(ctx, "UPDATE t SET x=1")` in the init
      statement of an `if` inside a range loop, `tx` a `*sql.Tx`. */
  const CallC: Node := MethodCall("ExecContext", At(12, 19), At(12, 30), 2)
  const IfC: Node :=
    Other([                                   // if _, err := tx.ExecContext(...); err != nil
      Other([Leaf, Leaf, CallC]),
      Other([Leaf, Leaf]),
      Other([Other([Leaf])])])                //   return err
  const LoopC: Node :=
    Loop(RangeStmt, [Leaf, Leaf, Leaf,        // for _, it := range items
      Other([Other([Leaf, Leaf]), IfC])])     //   _ = it
  const PackageC: seq<Node> := [
    Other([                                   // func positiveTx(tx, ctx, items)
      Other([Leaf, Leaf, Leaf]),
      Other([LoopC, Other([Leaf])])])]        //   return nil

  lemma ScenarioC()
    ensures Diagnostics(PackageC, 0, MethodInfo("ExecContext", "Tx"))
         == [Diagnostic(At(12, 19),
              "potential N+1: database/sql method " + "ExecContext" + " called inside a loop")]
  {
    var info := MethodInfo("ExecContext", "Tx");
    assert IsDBSQLMethodCall(info, CallC.expr, SuspectNames);
    Three(Leaf, Leaf, CallC, 1, info);
    Two(Leaf, Leaf, 1, info);
    DiagnosticsSingle(Leaf, 1, info);
    DiagnosticsSingle(Other([Leaf]), 1, info);
    Three(Other([Leaf, Leaf, CallC]), Other([Leaf, Leaf]), Other([Other([Leaf])]), 1, info);
    Two(Other([Leaf, Leaf]), IfC, 1, info);
    Four(Leaf, Leaf, Leaf, LoopC.children[3], 1, info);
    DiagnosticsSingle(Leaf, 0, info);
    Two(LoopC, Other([Leaf]), 0, info);
    Three(Leaf, Leaf, Leaf, 0, info);
    Two(Other([Leaf, Leaf, Leaf]), PackageC[0].children[1], 0, info);
    DiagnosticsSingle(PackageC[0], 0, info);
  }

  /** testdata/src/d: the package function `sql.Open("mysql", "dsn")` in a
      range loop; its selector has no selection entry. */
  const CallD: Node := MethodCall("Open", At(9, 14), At(9, 18), 2)
  const LoopD: Node :=
    Loop(RangeStmt, [Leaf, Leaf, Leaf,        // for _, n := range names
      Other([
        Other([Leaf, Leaf]),                  //   _ = n
        Other([Leaf, Leaf, CallD])            //   _, _ = sql.Open("mysql", "dsn")
      ])])
  const PackageD: seq<Node> := [
    Other([                                   // func openInLoop(names)
      Other([Leaf]),
      Other([LoopD])])]

  lemma ScenarioD()
    ensures Diagnostics(PackageD, 0, TypesInfo(map[])) == []
  {
    var info := TypesInfo(map[]);
    Three(Leaf, Leaf, CallD, 1, info);
    Two(Leaf, Leaf, 1, info);
    Two(Other([Leaf, Leaf]), Other([Leaf, Leaf, CallD]), 1, info);
    Four(Leaf, Leaf, Leaf, LoopD.children[3], 1, info);
    DiagnosticsSingle(LoopD, 0, info);
    DiagnosticsSingle(Leaf, 0, info);
    Two(Other([Leaf]), Other([LoopD]), 0, info);
    DiagnosticsSingle(PackageD[0], 0, info);
  }

  /** `process(db.QueryRowContext(ctx, q))` in a range loop: the inner call
      is suspect, but only the outer call is visited, and its callee is not a
      selector. */
  const InnerCall: Node := MethodCall("QueryRowContext", At(3, 14), At(3, 29), 2)
  const OuterCall: Node := Call(CallExpr(NotSelector, At(3, 10)), [Leaf, InnerCall])
  const NestedInArgument: seq<Node> := [Loop(RangeStmt, [Leaf, Leaf, Leaf, OuterCall])]

  lemma ScenarioNestedInArgument()
    ensures IsDBSQLMethodCall(MethodInfo("QueryRowContext", "DB"), InnerCall.expr, SuspectNames)
    ensures Diagnostics(NestedInArgument, 0, MethodInfo("QueryRowContext", "DB")) == []
  {
    var info := MethodInfo("QueryRowContext", "DB");
    Four(Leaf, Leaf, Leaf, OuterCall, 1, info);
    DiagnosticsSingle(NestedInArgument[0], 0, info);
  }
}
