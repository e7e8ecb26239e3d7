/** The syntax walker of the N+1 pass (`run`): a depth-first traversal with
    push and pop events, a mutable loop-depth counter, and diagnostics
    appended to the pass for every accepted call inside a loop.

    The traversal is specified twice: `Diagnostics` follows the walker's own
    recursion (enter loops, stop at calls), and `Flagged(Occurrences(..))`
    starts from every call in the tree, descending into everything, and keeps
    those the walker reaches inside a loop. `PassMatchesOccurrences` proves
    the two equal; `LoopCallback` and `Inspect` are the imperative walker,
    proved to produce `Diagnostics`. */
module Walker {
  import opened Syntax
  import opened Classifier
  import opened Reporter

  /** The node filter of `run`: the callback is invoked for ForStmt,
      RangeStmt and CallExpr nodes only; the inspector walks through every
      other node without calling it. */
  predicate InFilter(n: Node)
  {
    n.Loop? || n.Call?
  }

  // ----- The walker's specification -----

  /** The diagnostics for a forest entered at loop depth `depth`, in
      pre-order: loops raise the depth for everything below them; a call yields
      at most its own diagnostic and nothing from below it. */
  function Diagnostics(ns: seq<Node>, depth: int, info: TypesInfo): seq<Diagnostic>
  {
    if ns == [] then []
    else NodeDiagnostics(ns[0], depth, info) + Diagnostics(ns[1..], depth, info)
  }

  function NodeDiagnostics(n: Node, depth: int, info: TypesInfo): seq<Diagnostic>
  {
    match n
    case Loop(_, children) => Diagnostics(children, depth + 1, info)
    case Call(call, _) =>
      if depth > 0 && IsDBSQLMethodCall(info, call, SuspectNames) then [Report(call)] else []
    case Other(children) => Diagnostics(children, depth, info)
  }

  lemma {:induction false} DiagnosticsAppend(a: seq<Node>, b: seq<Node>, depth: int, info: TypesInfo)
    ensures Diagnostics(a + b, depth, info) == Diagnostics(a, depth, info) + Diagnostics(b, depth, info)
  {
    if a == [] {
      assert a + b == b;
    } else {
      assert (a + b)[0] == a[0];
      assert (a + b)[1..] == a[1..] + b;
      DiagnosticsAppend(a[1..], b, depth, info);
    }
  }

  // ----- The reference characterisation -----

  /** A call expression in the tree, with the number of loop statements
      among its ancestors and whether some ancestor is itself a call. */
  datatype Occurrence = Occurrence(call: CallExpr, loops: nat, nested: bool)

  /** Every call of the forest in pre-order, including calls inside the
      callee and the arguments of other calls. */
  function Occurrences(ns: seq<Node>, loops: nat, nested: bool): seq<Occurrence>
  {
    if ns == [] then []
    else NodeOccurrences(ns[0], loops, nested) + Occurrences(ns[1..], loops, nested)
  }

  function NodeOccurrences(n: Node, loops: nat, nested: bool): seq<Occurrence>
  {
    match n
    case Loop(_, children) => Occurrences(children, loops + 1, nested)
    case Call(call, operands) => [Occurrence(call, loops, nested)] + Occurrences(operands, loops, true)
    case Other(children) => Occurrences(children, loops, nested)
  }

  /** The calls that deserve a diagnostic: not inside another call, inside at
      least one loop, and accepted by the classifier. */
  predicate Flags(o: Occurrence, info: TypesInfo)
  {
    !o.nested && o.loops > 0 && IsDBSQLMethodCall(info, o.call, SuspectNames)
  }

  /** One diagnostic per flagged occurrence, in order. */
  function Flagged(os: seq<Occurrence>, info: TypesInfo): seq<Diagnostic>
  {
    if os == [] then []
    else (if Flags(os[0], info) then [Report(os[0].call)] else []) + Flagged(os[1..], info)
  }

  lemma {:induction false} FlaggedAppend(a: seq<Occurrence>, b: seq<Occurrence>, info: TypesInfo)
    ensures Flagged(a + b, info) == Flagged(a, info) + Flagged(b, info)
  {
    if a == [] {
      assert a + b == b;
    } else {
      assert (a + b)[0] == a[0];
      assert (a + b)[1..] == a[1..] + b;
      FlaggedAppend(a[1..], b, info);
    }
  }

  /** A diagnostic is in `Flagged(os)` exactly when it is the report of some
      flagged occurrence of `os`. */
  lemma {:induction false} FlaggedMembers(os: seq<Occurrence>, info: TypesInfo)
    ensures forall d :: d in Flagged(os, info) <==>
      exists o :: o in os && Flags(o, info) && d == Report(o.call)
  {
    if os != [] {
      FlaggedMembers(os[1..], info);
      assert forall o :: o in os <==> o == os[0] || o in os[1..];
    }
  }

  /** Nothing below a call is ever flagged. */
  lemma {:induction false} NestedNeverFlagged(ns: seq<Node>, loops: nat, info: TypesInfo)
    ensures Flagged(Occurrences(ns, loops, true), info) == []
  {
    if ns != [] {
      var n := ns[0];
      FlaggedAppend(NodeOccurrences(n, loops, true), Occurrences(ns[1..], loops, true), info);
      NestedNeverFlagged(ns[1..], loops, info);
      match n
      case Loop(_, children) =>
        NestedNeverFlagged(children, loops + 1, info);
      case Call(call, operands) =>
        FlaggedAppend([Occurrence(call, loops, true)], Occurrences(operands, loops, true), info);
        NestedNeverFlagged(operands, loops, info);
      case Other(children) =>
        NestedNeverFlagged(children, loops, info);
    }
  }

  /** The walker's output is exactly the reports of the flagged calls, in
      pre-order: a call gets a diagnostic if and only if it has at least one
      loop ancestor, no call ancestor, and the classifier accepts it. */
  lemma {:induction false} PassMatchesOccurrences(ns: seq<Node>, loops: nat, info: TypesInfo)
    ensures Diagnostics(ns, loops, info) == Flagged(Occurrences(ns, loops, false), info)
  {
    if ns != [] {
      var n := ns[0];
      FlaggedAppend(NodeOccurrences(n, loops, false), Occurrences(ns[1..], loops, false), info);
      PassMatchesOccurrences(ns[1..], loops, info);
      match n
      case Loop(_, children) =>
        PassMatchesOccurrences(children, loops + 1, info);
      case Call(call, operands) =>
        FlaggedAppend([Occurrence(call, loops, false)], Occurrences(operands, loops, true), info);
        NestedNeverFlagged(operands, loops, info);
      case Other(children) =>
        PassMatchesOccurrences(children, loops, info);
    }
  }

  /** Every diagnostic of a pass comes from a call that sits inside a loop,
      inside no other call, and is accepted by the classifier; it is reported
      at that call's method-name token, never with the message for
      non-selector callees; and every such call is reported. */
  lemma PassReportsExactly(files: seq<Node>, info: TypesInfo)
    ensures forall d :: d in Diagnostics(files, 0, info) <==>
      exists o :: o in Occurrences(files, 0, false) && Flags(o, info) && d == Report(o.call)
    ensures forall d :: d in Diagnostics(files, 0, info) ==>
      exists o :: && o in Occurrences(files, 0, false) && !o.nested && o.loops > 0
                  && o.call.fun.Selector? && d.pos == o.call.fun.namePos && d.message != CallMessage
  {
    PassMatchesOccurrences(files, 0, info);
    FlaggedMembers(Occurrences(files, 0, false), info);
  }

  /** Without loops there are no diagnostics. */
  lemma {:induction false} NoLoopNoDiagnostics(ns: seq<Node>, depth: int, info: TypesInfo)
    requires depth <= 0 && !HasLoop(ns)
    ensures Diagnostics(ns, depth, info) == []
  {
    if ns != [] {
      NoLoopNoDiagnostics(ns[1..], depth, info);
      match ns[0]
      case Loop(_, _) =>
      case Call(_, _) =>
      case Other(children) =>
        NoLoopNoDiagnostics(children, depth, info);
    }
  }

  /** Once inside a loop, further nesting changes nothing. */
  lemma {:induction false} DepthBeyondOneIrrelevant(ns: seq<Node>, d1: int, d2: int, info: TypesInfo)
    requires d1 >= 1 && d2 >= 1
    ensures Diagnostics(ns, d1, info) == Diagnostics(ns, d2, info)
  {
    if ns != [] {
      DepthBeyondOneIrrelevant(ns[1..], d1, d2, info);
      match ns[0]
      case Loop(_, children) =>
        DepthBeyondOneIrrelevant(children, d1 + 1, d2 + 1, info);
      case Call(_, _) =>
      case Other(children) =>
        DepthBeyondOneIrrelevant(children, d1, d2, info);
    }
  }

  lemma DiagnosticsSingle(n: Node, depth: int, info: TypesInfo)
    ensures Diagnostics([n], depth, info) == NodeDiagnostics(n, depth, info)
  {
    assert [n][1..] == [];
  }

  lemma LoopCountSnoc(path: seq<Node>, n: Node)
    ensures LoopCount(path + [n]) == LoopCount(path) + (if n.Loop? then 1 else 0)
  {
    assert (path + [n])[..|path|] == path;
  }

  // ----- The imperative walker -----

  /** The analysis pass: the files of the package, their type information,
      and the diagnostics reported so far. */
  class Pass {
    const files: seq<Node>
    const info: TypesInfo
    var diagnostics: seq<Diagnostic>

    constructor (files: seq<Node>, info: TypesInfo)
      ensures this.files == files && this.info == info && diagnostics == []
    {
      this.files := files;
      this.info := info;
      diagnostics := [];
    }

    /** `pass.Reportf`: appends one diagnostic. */
    method Reportf(d: Diagnostic)
      modifies this
      ensures diagnostics == old(diagnostics) + [d]
    {
      diagnostics := diagnostics + [d];
    }
  }

  /** The callback `run` hands to the inspector, with the `loopDepth` counter
      it closes over. */
  class LoopCallback {
    const pass: Pass
    var loopDepth: int

    constructor (pass: Pass)
      ensures this.pass == pass && loopDepth == 0
    {
      this.pass := pass;
      loopDepth := 0;
    }

    /** One invocation: `push` is true before the children of `n` are
        visited and false after them. `ancestors` is the path from the root
        to `n`; the counter equals the number of loops on it (plus one while
        leaving a loop, whose own push raised it). Loops of both kinds raise
        the counter on push and lower it on pop and let the traversal
        continue; a call is reported when it is pushed inside a loop and
        accepted, and never lets the traversal enter its children. */
    method Visit(n: Node, push: bool, ghost ancestors: seq<Node>) returns (proceed: bool)
      requires loopDepth == LoopCount(ancestors) + (if n.Loop? && !push then 1 else 0)
      modifies this, pass
      ensures proceed <==> !n.Call?
      ensures loopDepth == LoopCount(ancestors) + (if n.Loop? && push then 1 else 0)
      ensures pass.diagnostics == old(pass.diagnostics) +
        (if n.Call? && push && LoopCount(ancestors) > 0 && IsDBSQLMethodCall(pass.info, n.expr, SuspectNames)
         then [Report(n.expr)] else [])
    {
      match n
      case Loop(_, _) =>
        if push {
          loopDepth := loopDepth + 1;
        } else {
          loopDepth := loopDepth - 1;
        }
        return true;
      case Call(call, _) =>
        if !push {
          return false;
        }
        if loopDepth <= 0 {
          return false;
        }
        if IsDBSQLMethodCall(pass.info, call, SuspectNames) {
          pass.Reportf(Report(call));
        }
        return false;
      case Other(_) =>
        return true;
    }
  }

  /** `inspector.Nodes` with the filter of `run`, over the forest `ns` below
      `ancestors`: each node in order, as `InspectNode` says. The counter
      comes back to its starting value, and the pass gains exactly the
      specified diagnostics. */
  method Inspect(cb: LoopCallback, ns: seq<Node>, ghost ancestors: seq<Node>)
    requires cb.loopDepth == LoopCount(ancestors)
    modifies cb, cb.pass
    ensures cb.loopDepth == old(cb.loopDepth)
    ensures cb.pass.diagnostics ==
      old(cb.pass.diagnostics) + Diagnostics(ns, LoopCount(ancestors), cb.pass.info)
    decreases ns, 1
  {
    var i := 0;
    while i < |ns|
      invariant 0 <= i <= |ns|
      invariant cb.loopDepth == LoopCount(ancestors)
      invariant cb.pass.diagnostics ==
        old(cb.pass.diagnostics) + Diagnostics(ns[..i], LoopCount(ancestors), cb.pass.info)
    {
      InspectNode(cb, ns[i], ancestors);
      DiagnosticsAppend(ns[..i], [ns[i]], LoopCount(ancestors), cb.pass.info);
      DiagnosticsSingle(ns[i], LoopCount(ancestors), cb.pass.info);
      assert ns[..i + 1] == ns[..i] + [ns[i]];
      i := i + 1;
    }
    assert ns[..i] == ns;
  }

  /** One node of the traversal: the callback is pushed (filtered nodes
      only), the children are visited when it returned true (always for
      unfiltered nodes), and then the callback is popped. */
  method InspectNode(cb: LoopCallback, n: Node, ghost ancestors: seq<Node>)
    requires cb.loopDepth == LoopCount(ancestors)
    modifies cb, cb.pass
    ensures cb.loopDepth == old(cb.loopDepth)
    ensures cb.pass.diagnostics ==
      old(cb.pass.diagnostics) + NodeDiagnostics(n, LoopCount(ancestors), cb.pass.info)
    decreases n, 0
  {
    var proceed := true;
    if InFilter(n) {
      proceed := cb.Visit(n, true, ancestors);
    }
    if proceed {
      // Only loops and unfiltered nodes let the traversal continue.
      LoopCountSnoc(ancestors, n);
      Inspect(cb, n.children, ancestors + [n]);
      if InFilter(n) {
        proceed := cb.Visit(n, false, ancestors);
      }
    }
  }

  /** `run`: a counter starting at 0 and one inspection of all files. */
  method Run(pass: Pass)
    modifies pass
    ensures pass.diagnostics == old(pass.diagnostics) + Diagnostics(pass.files, 0, pass.info)
  {
    var cb := new LoopCallback(pass);
    Inspect(cb, pass.files, []);
    assert cb.loopDepth == 0;
  }

  /** One analysis of a package: a fresh pass, `run`, and the diagnostics it
      reported, which are exactly the reports of the flagged calls. */
  method Analyze(files: seq<Node>, info: TypesInfo) returns (diagnostics: seq<Diagnostic>)
    ensures diagnostics == Diagnostics(files, 0, info)
    ensures diagnostics == Flagged(Occurrences(files, 0, false), info)
  {
    var pass := new Pass(files, info);
    Run(pass);
    diagnostics := pass.diagnostics;
    PassMatchesOccurrences(files, 0, info);
  }
}
