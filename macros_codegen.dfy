/** The rewriter of the proc-macro crate (crates/macros/src/codegen.rs). Its
    parameter scan passes over a `self` receiver as a parameter without
    `#[context]`, so the scan never aborts. */
module MacrosCodegen {
  import opened Wrappers
  import opened Syntax
  import opened Utils
  import opened CodegenCommon

  /** `context_var`: the identifier of the first parameter, in signature
      order, that carries `#[context]` and binds a plain identifier;
      receivers and parameters with other patterns are passed over. */
  function ContextVar(args: seq<Param>): (r: Option<string>)
    ensures r.None? <==> forall i :: 0 <= i < |args| ==> ContextIdent(args[i]).None?
    ensures r.Some? ==>
      exists i :: 0 <= i < |args| && ContextIdent(args[i]) == r &&
        forall j :: 0 <= j < i ==> ContextIdent(args[j]).None?
    decreases |args|
  {
    if args == [] then None
    else if ContextIdent(args[0]).Some? then ContextIdent(args[0])
    else ContextVar(args[1..])
  }

  /** `expand_attribute`: put the rstest entry-point attribute first, in
      front of the attributes already there. */
  method ExpandAttribute(f: ItemFn, lookup: string -> Option<FoundCrate>) returns (r: Outcome<Panic>)
    modifies f`attrs
    ensures CrateName(lookup, "rstest").Failure? ==>
      r == Fail(MissingCrate("rstest")) && f.attrs == old(f.attrs)
    ensures CrateName(lookup, "rstest").Success? ==>
      r == Pass && f.attrs == Insert(old(f.attrs), 0, RstestAttr(CrateName(lookup, "rstest").value))
  {
    var rstestCrate := CrateName(lookup, "rstest");
    if rstestCrate.Failure? {
      return Fail(rstestCrate.error);
    }
    f.attrs := Insert(f.attrs, 0, RstestAttr(rstestCrate.value));
    return Pass;
  }

  /** `context_binding`: the name of the context parameter, adding
      `#[context] __rstest_insta__ctx: Context` in front of the parameters
      when there is none. It never fails, and afterwards the scan finds the
      returned name. */
  method ContextBinding(f: ItemFn) returns (binding: string)
    modifies f`inputs
    ensures ContextVar(old(f.inputs)).Some? ==>
      binding == ContextVar(old(f.inputs)).value && f.inputs == old(f.inputs)
    ensures ContextVar(old(f.inputs)).None? ==>
      binding == DefaultCtxBinding && f.inputs == Insert(old(f.inputs), 0, ContextArg(DefaultCtxBinding))
    ensures ContextVar(f.inputs) == Some(binding)
  {
    match ContextVar(f.inputs)
    case Some(ident) =>
      binding := ident;
    case None =>
      f.inputs := Insert(f.inputs, 0, ContextArg(DefaultCtxBinding));
      ContextArgIsRecognised(DefaultCtxBinding);
      binding := DefaultCtxBinding;
  }

  /** `expand_body`: replace the body by the suffix binding followed by the
      original block inside `with_settings!`. */
  method ExpandBody(f: ItemFn, ctxBinding: string, lookup: string -> Option<FoundCrate>) returns (r: Outcome<Panic>)
    modifies f`block
    ensures CrateName(lookup, "insta").Failure? ==>
      r == Fail(MissingCrate("insta")) && f.block == old(f.block)
    ensures CrateName(lookup, "insta").Success? ==>
      r == Pass && f.block == SnapshotBody(old(f.block), ctxBinding, CrateName(lookup, "insta").value)
  {
    var instaCrate := CrateName(lookup, "insta");
    if instaCrate.Failure? {
      return Fail(instaCrate.error);
    }
    f.block := SnapshotBody(f.block, ctxBinding, instaCrate.value);
    return Pass;
  }

  /** `expand`: the three steps in order. Only a missing crate aborts it;
      otherwise the rstest attribute comes first, the body reads the suffix
      from a parameter the scan recognises as the context, and the original
      block occurs exactly once in the new body. */
  method Expand(f: ItemFn, lookup: string -> Option<FoundCrate>) returns (r: Outcome<Panic>)
    modifies f
    ensures f.name == old(f.name)
    ensures r.Pass? <==> CrateName(lookup, "rstest").Success? && CrateName(lookup, "insta").Success?
    ensures CrateName(lookup, "rstest").Failure? ==>
      && r == Fail(MissingCrate("rstest"))
      && f.attrs == old(f.attrs) && f.inputs == old(f.inputs) && f.block == old(f.block)
    ensures (CrateName(lookup, "rstest").Success? && CrateName(lookup, "insta").Failure?) ==>
      r == Fail(MissingCrate("insta"))
    ensures r.Pass? ==>
      var binding := ContextVar(old(f.inputs)).GetOr(DefaultCtxBinding);
      && f.attrs == Insert(old(f.attrs), 0, RstestAttr(CrateName(lookup, "rstest").value))
      && f.inputs == (if ContextVar(old(f.inputs)).Some? then old(f.inputs)
                      else Insert(old(f.inputs), 0, ContextArg(DefaultCtxBinding)))
      && f.block == SnapshotBody(old(f.block), binding, CrateName(lookup, "insta").value)
    ensures r.Pass? ==>
      && f.attrs[0] == RstestAttr(CrateName(lookup, "rstest").value)
      && ContextVar(f.inputs) == Some(f.block.stmts[0].ctx)
      && CountIn(f.block, old(f.block)) == 1
  {
    r := ExpandAttribute(f, lookup);
    if r.Fail? {
      return;
    }
    var binding := ContextBinding(f);
    r := ExpandBody(f, binding, lookup);
  }

  /** `fn my_test(#[context] my_context: Context)`. */
  lemma ContextVarFindsContextArg()
    ensures ContextVar([ContextArg("my_context")]) == Some("my_context")
  {
    ContextArgIsRecognised("my_context");
  }

  /** A receiver is passed over: `fn my_test(self, a: usize)` has no
      context parameter. */
  lemma ContextVarSkipsSelf()
    ensures ContextVar([Receiver, Typed([], Ident("a"), "usize")]) == None
  {
  }
}
