/** The diagnostic reporter: the message and position of the finding for a
    call the classifier accepted. */
module Reporter {
  import opened Syntax

  /** A finding: where it is reported and what it says. */
  datatype Diagnostic = Diagnostic(pos: Pos, message: string)

  /** The message for `Prepare` and `PrepareContext`. */
  const PrepareMessage: string :=
    "prepare inside loop; " + "consider preparing once and reusing the statement"

  /** The text before and after the method name in the generic message. */
  const MethodPrefix: string := "potential N+1: database/sql method "
  const MethodSuffix: string := " called inside a loop"

  /** The message for a callee that is not a selector. */
  const CallMessage: string := "potential N+1: database/sql call inside a loop"

  /** The generic message: the fixed prefix, the method name and the fixed
      suffix. */
  function MethodMessage(name: string): (m: string)
    ensures |m| == |MethodPrefix| + |name| + |MethodSuffix|
    ensures m[..|MethodPrefix|] == MethodPrefix
    ensures m[|MethodPrefix|..|MethodPrefix| + |name|] == name
    ensures m[|MethodPrefix| + |name|..] == MethodSuffix
  {
    var m := MethodPrefix + name + MethodSuffix;
    assert m[..|MethodPrefix|] == MethodPrefix;
    assert m[|MethodPrefix|..|MethodPrefix| + |name|] == name;
    assert m[|MethodPrefix| + |name|..] == MethodSuffix;
    m
  }

  predicate IsPrepare(name: string)
  {
    name == "Prepare" || name == "PrepareContext"
  }

  /** The generic messages are never the prepare message: they differ in their
      second character. */
  lemma MessagesDiffer(name: string)
    ensures MethodMessage(name) != PrepareMessage
    ensures CallMessage != PrepareMessage
  {
    assert MethodMessage(name)[1] == MethodPrefix[1] == 'o';
    assert CallMessage[1] == 'o';
    assert PrepareMessage[1] == 'r';
  }

  /** The finding for an accepted call: at the method-name token of a selector
      callee, with the prepare message exactly for `Prepare` and
      `PrepareContext` and the generic message naming the method otherwise; at
      the `(` of any other call, with the message that names no method. */
  function Report(call: CallExpr): (d: Diagnostic)
    ensures call.fun.Selector? ==> d.pos == call.fun.namePos
    ensures !call.fun.Selector? ==> d.pos == call.lparen && d.message == CallMessage
    ensures d.message == PrepareMessage <==> call.fun.Selector? && IsPrepare(call.fun.name)
    ensures call.fun.Selector? && !IsPrepare(call.fun.name) ==> d.message == MethodMessage(call.fun.name)
  {
    match call.fun
    case Selector(_, name, namePos) =>
      if IsPrepare(name) then Diagnostic(namePos, PrepareMessage)
      else MessagesDiffer(name); Diagnostic(namePos, MethodMessage(name))
    case NotSelector =>
      MessagesDiffer(""); Diagnostic(call.lparen, CallMessage)
  }
}
