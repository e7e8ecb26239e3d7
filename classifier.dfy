/** The call classifier: whether a call expression is a call of a
    `database/sql` method whose name is in the suspect set
    (`isDBSQLMethodCall`), and the pointer-stripping package lookup it falls
    back on (`pkgPathOfType`). */
module Classifier {
  import opened Syntax

  /** The only package whose methods are watched. */
  const TargetPackage: string := "database/sql"

  /** The candidate method names. */
  const SuspectNames: set<string> :=
    {"Query", "QueryContext", "QueryRow", "QueryRowContext",
     "Exec", "ExecContext", "Prepare", "PrepareContext"}

  /** `t` under `k` levels of pointer. */
  function Wrap(t: Type, k: nat): Type
  {
    if k == 0 then t else Pointer(Wrap(t, k - 1))
  }

  /** Number of leading pointer levels of `t`. */
  function PointerDepth(t: Type): nat
  {
    if t.Pointer? then 1 + PointerDepth(t.elem) else 0
  }

  /** `t` with every pointer level stripped: not itself a pointer, and `t` is
      exactly that type under `PointerDepth(t)` pointers. */
  function Deref(t: Type): (r: Type)
    ensures !r.Pointer?
    ensures Wrap(r, PointerDepth(t)) == t
  {
    if t.Pointer? then Deref(t.elem) else t
  }

  /** The package path of a non-pointer type: that of a named type whose object
      and package are present, and "" otherwise. */
  function NamedPath(t: Type): string
  {
    if t.Named? && t.obj.Some? && t.obj.value.pkg.Some? then t.obj.value.pkg.value else ""
  }

  /** What `pkgPathOfType` returns, stated on values. */
  function PkgPath(t: Type): string
  {
    NamedPath(Deref(t))
  }

  /** Pointer levels never change the package path. */
  lemma {:induction false} PkgPathIgnoresPointers(t: Type, k: nat)
    ensures PkgPath(Wrap(t, k)) == PkgPath(t)
  {
    if k > 0 {
      PkgPathIgnoresPointers(t, k - 1);
    }
  }

  /** The path is that of the pointer-stripped type's declaring package when
      that type is named and has a package with a non-empty path, and ""
      otherwise. */
  lemma PkgPathCases(t: Type)
    ensures PkgPath(t) != "" <==>
      exists name, p :: p != "" && Deref(t) == Named(Some(TypeName(name, Some(p))))
    ensures PkgPath(t) != "" ==> Deref(t).obj.value.pkg == Some(PkgPath(t))
  {
  }

  /** `pkgPathOfType`: strips pointers in a loop, then reads the named type's
      package path. */
  method PkgPathOfType(t: Type) returns (path: string)
    ensures path == PkgPath(t)
  {
    var u := t;
    while u.Pointer?
      invariant Deref(u) == Deref(t)
      decreases u
    {
      u := u.elem;
    }
    if u.Named? && u.obj.Some? && u.obj.value.pkg.Some? {
      path := u.obj.value.pkg.value;
    } else {
      path := "";
    }
  }

  /** First way to match: the selection resolves to a function declared in the
      target package whose own name is in `names`. */
  predicate ResolvesToTargetMethod(sel: Selection, names: set<string>)
  {
    sel.obj.Func? && sel.obj.pkg == Some(TargetPackage) && sel.obj.name in names
  }

  /** Second way to match: the receiver's type, with every pointer stripped, is
      a named type declared in the target package, and the selected name is
      in `names`. */
  predicate ReceiverInTargetPackage(sel: Selection, selName: string, names: set<string>)
  {
    && sel.recv.Some?
    && Deref(sel.recv.value).Named?
    && Deref(sel.recv.value).obj.Some?
    && Deref(sel.recv.value).obj.value.pkg == Some(TargetPackage)
    && selName in names
  }

  /** `isDBSQLMethodCall`: the guard chain of the source. A call is accepted
      exactly when its callee is a selector that go/types records as a
      selection and one of the two ways to match holds; calls whose callee is
      not a selector, and qualified package functions (no selection entry),
      are never accepted. */
  function IsDBSQLMethodCall(info: TypesInfo, call: CallExpr, names: set<string>): (r: bool)
    ensures !call.fun.Selector? ==> !r
    ensures call.fun.Selector? && call.fun.id !in info.selections ==> !r
    ensures r <==>
      && call.fun.Selector?
      && call.fun.id in info.selections
      && (|| ResolvesToTargetMethod(info.selections[call.fun.id], names)
          || ReceiverInTargetPackage(info.selections[call.fun.id], call.fun.name, names))
  {
    if !call.fun.Selector? then false
    else if call.fun.id !in info.selections then false
    else
      var sel := info.selections[call.fun.id];
      if sel.obj.Func? && sel.obj.pkg.Some? && sel.obj.pkg.value == TargetPackage
         && sel.obj.name in names then true
      else if sel.recv.Some? && PkgPath(sel.recv.value) == TargetPackage
              && call.fun.name in names then true
      else false
  }

  /** go/types names a method selection's object after the selector: when the
      selected object is a function, its name is the selected name. */
  predicate NamesAgree(info: TypesInfo, call: CallExpr)
  {
    (call.fun.Selector? && call.fun.id in info.selections && info.selections[call.fun.id].obj.Func?)
    ==> info.selections[call.fun.id].obj.name == call.fun.name
  }

  /** A selected name outside the suspect set never matches. */
  lemma NameOutsideSetNeverMatches(info: TypesInfo, call: CallExpr, names: set<string>)
    requires NamesAgree(info, call)
    requires call.fun.Selector? && call.fun.name !in names
    ensures !IsDBSQLMethodCall(info, call, names)
  {
  }

  /** A method reached through any number of pointers to a named type of the
      target package matches, whatever package go/types gives the method. */
  lemma IndirectReceiverMatches(info: TypesInfo, call: CallExpr, names: set<string>, tn: TypeName, k: nat)
    requires call.fun.Selector? && call.fun.id in info.selections
    requires info.selections[call.fun.id].recv == Some(Wrap(Named(Some(tn)), k))
    requires tn.pkg == Some(TargetPackage)
    requires call.fun.name in names
    ensures IsDBSQLMethodCall(info, call, names)
  {
    PkgPathIgnoresPointers(Named(Some(tn)), k);
  }
}
