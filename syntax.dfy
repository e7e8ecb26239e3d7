/** The program representation the analysis consumes: an abstraction of the
    Go syntax tree (go/ast) and of the type information go/types attaches to
    selector expressions. Only what the N+1 pass inspects is kept. */
module Syntax {

  datatype Option<+T> = None | Some(value: T)

  /** A source position (token.Pos), kept abstract. */
  type Pos = nat

  /** The two loop statements the pass counts: `for init; cond; post {}` and
      `for k, v := range x {}`. */
  datatype LoopKind = ForStmt | RangeStmt

  /** The `Fun` part of a call expression. A selector `x.Name` carries the
      identity of the selector node (the key of the type information), the
      selected name and the position of the name token; its receiver
      expression `x` is one of the call's operands. Every other callee form
      (a bare identifier, a parenthesised or indexed expression, a function
      literal) is `NotSelector`. */
  datatype Callee =
    | Selector(id: nat, name: string, namePos: Pos)
    | NotSelector

  /** A call expression: its callee and the position of its `(`. */
  datatype CallExpr = CallExpr(fun: Callee, lparen: Pos)

  /** A syntax tree node as the traversal sees it.
      - `Loop`: a ForStmt or RangeStmt; `children` are all its subtrees
        (init, condition, post statement or range operand, and body).
      - `Call`: a CallExpr; `operands` are the subtrees of its callee
        (the receiver of a selector, a function literal, ...) and its
        arguments.
      - `Other`: any other node (files, declarations, blocks, statements,
        expressions, function literals), with its subtrees. */
  datatype Node =
    | Loop(kind: LoopKind, children: seq<Node>)
    | Call(expr: CallExpr, operands: seq<Node>)
    | Other(children: seq<Node>)

  /** Number of loop statements in a path of nodes. */
  function LoopCount(path: seq<Node>): nat
  {
    if path == [] then 0
    else LoopCount(path[..|path| - 1]) + (if path[|path| - 1].Loop? then 1 else 0)
  }

  /** Whether a loop statement occurs anywhere in the forest, including inside
      the operands of calls. */
  predicate HasLoop(ns: seq<Node>)
  {
    if ns == [] then false
    else
      match ns[0]
      case Loop(_, _) => true
      case Call(_, operands) => HasLoop(operands) || HasLoop(ns[1..])
      case Other(children) => HasLoop(children) || HasLoop(ns[1..])
  }

  /** The declared package of a named type's object, if any (`Obj().Pkg()`). */
  datatype TypeName = TypeName(name: string, pkg: Option<string>)

  /** A go/types type: a pointer, a named (defined) type whose object may be
      absent, or any other type (basic, struct, interface literal, slice,
      alias, ...). */
  datatype Type =
    | Pointer(elem: Type)
    | Named(obj: Option<TypeName>)
    | OtherType

  /** The object a selection denotes: a function or method (`*types.Func`) with
      its name and declaring package, or another object (a struct field). */
  datatype Object =
    | Func(name: string, pkg: Option<string>)
    | OtherObject

  /** A `types.Selection`: the selected object and the receiver type. */
  datatype Selection = Selection(obj: Object, recv: Option<Type>)

  /** `TypesInfo.Selections`: the selector nodes that are method or field
      selections. A qualified identifier such as `sql.Open` has no entry. */
  datatype TypesInfo = TypesInfo(selections: map<nat, Selection>)
}
