/** The rewriter of the top-level crate (src/codegen.rs). Its parameter scan
    rejects a `self` receiver: meeting one before a match aborts the expansion. */
module RootCodegen {
  import opened Wrappers
  import opened Syntax
  import opened Utils
  import opened CodegenCommon

  /** `context_var`: the identifier of the first parameter, in signature
      order, that carries `#[context]` and binds a plain identifier. The scan
      is lazy: it stops at that parameter, and it panics on a receiver only
      when the receiver comes before it. */
  function ContextVar(args: seq<Param>): (r: Result<Option<string>, Panic>)
    ensures r.Failure? <==>
      exists i :: 0 <= i < |args| && args[i].Receiver? &&
        forall j :: 0 <= j < i ==> ContextIdent(args[j]).None?
    ensures r.Failure? ==> r.error == SelfNotSupported
    ensures r == Success(None) <==>
      forall i :: 0 <= i < |args| ==> !args[i].Receiver? && ContextIdent(args[i]).None?
    ensures r.Success? && r.value.Some? ==>
      exists i :: 0 <= i < |args| && ContextIdent(args[i]) == r.value &&
        forall j :: 0 <= j < i ==> !args[j].Receiver? && ContextIdent(args[j]).None?
    decreases |args|
  {
    if args == [] then Success(None)
    else match args[0]
      case Receiver => Failure(SelfNotSupported)
      case Typed(_, _, _) =>
        if ContextIdent(args[0]).Some? then Success(ContextIdent(args[0]))
        else ContextVar(args[1..])
  }

  /** `expand_attribute`: put the rstest entry-point attribute first, in
      front of the attributes already there. */
  method ExpandAttribute(f: ItemFn, lookup: string -> Option<FoundCrate>) returns (r: Outcome<Panic>)
    modifies f`attrs
    ensures CrateName(lookup, "rstest").Failure? ==>
      r == Fail(MissingCrate("rstest")) && f.attrs == old(f.attrs)
    ensures CrateName(lookup, "rstest").Success? ==>
      r == Pass && f.attrs == Insert(old(f.attrs), 0, RstestAttr(CrateName(lookup, "rstest").value))
  {
    var rstestCrate := CrateName(lookup, "rstest");
    if rstestCrate.Failure? {
      return Fail(rstestCrate.error);
    }
    f.attrs := Insert(f.attrs, 0, RstestAttr(rstestCrate.value));
    return Pass;
  }

  /** `context_binding`: the name of the context parameter, adding
      `#[context] __rstest_insta__ctx: Context` in front of the parameters
      when there is none. Afterwards the scan finds the returned name. */
  method ContextBinding(f: ItemFn) returns (r: Result<string, Panic>)
    modifies f`inputs
    ensures match ContextVar(old(f.inputs))
      case Failure(e) => r == Failure(e) && f.inputs == old(f.inputs)
      case Success(Some(ident)) => r == Success(ident) && f.inputs == old(f.inputs)
      case Success(None) =>
        r == Success(DefaultCtxBinding) &&
        f.inputs == Insert(old(f.inputs), 0, ContextArg(DefaultCtxBinding))
    ensures r.Success? ==> ContextVar(f.inputs) == Success(Some(r.value))
  {
    var found := ContextVar(f.inputs);
    match found
    case Failure(e) =>
      r := Failure(e);
    case Success(Some(ident)) =>
      r := Success(ident);
    case Success(None) =>
      f.inputs := Insert(f.inputs, 0, ContextArg(DefaultCtxBinding));
      ContextArgIsRecognised(DefaultCtxBinding);
      r := Success(DefaultCtxBinding);
  }

  /** `expand_body`: replace the body by the suffix binding followed by the
      original block inside `with_settings!`. */
  method ExpandBody(f: ItemFn, ctxBinding: string, lookup: string -> Option<FoundCrate>) returns (r: Outcome<Panic>)
    modifies f`block
    ensures CrateName(lookup, "insta").Failure? ==>
      r == Fail(MissingCrate("insta")) && f.block == old(f.block)
    ensures CrateName(lookup, "insta").Success? ==>
      r == Pass && f.block == SnapshotBody(old(f.block), ctxBinding, CrateName(lookup, "insta").value)
  {
    var instaCrate := CrateName(lookup, "insta");
    if instaCrate.Failure? {
      return Fail(instaCrate.error);
    }
    f.block := SnapshotBody(f.block, ctxBinding, instaCrate.value);
    return Pass;
  }

  /** `expand`: the three steps in order. It aborts on the first failing
      step; otherwise the rstest attribute comes first, the body reads the
      suffix from a parameter the scan recognises as the context, and the
      original block occurs exactly once in the new body. */
  method Expand(f: ItemFn, lookup: string -> Option<FoundCrate>) returns (r: Outcome<Panic>)
    modifies f
    ensures f.name == old(f.name)
    ensures r.Pass? <==>
      CrateName(lookup, "rstest").Success? && ContextVar(old(f.inputs)).Success? &&
      CrateName(lookup, "insta").Success?
    ensures CrateName(lookup, "rstest").Failure? ==>
      && r == Fail(MissingCrate("rstest"))
      && f.attrs == old(f.attrs) && f.inputs == old(f.inputs) && f.block == old(f.block)
    ensures CrateName(lookup, "rstest").Success? && ContextVar(old(f.inputs)).Failure? ==>
      r == Fail(SelfNotSupported)
    ensures (CrateName(lookup, "rstest").Success? && ContextVar(old(f.inputs)).Success? &&
             CrateName(lookup, "insta").Failure?) ==> r == Fail(MissingCrate("insta"))
    ensures r.Pass? ==>
      var binding := ContextVar(old(f.inputs)).value.GetOr(DefaultCtxBinding);
      && f.attrs == Insert(old(f.attrs), 0, RstestAttr(CrateName(lookup, "rstest").value))
      && f.inputs == (if ContextVar(old(f.inputs)).value.Some? then old(f.inputs)
                      else Insert(old(f.inputs), 0, ContextArg(DefaultCtxBinding)))
      && f.block == SnapshotBody(old(f.block), binding, CrateName(lookup, "insta").value)
    ensures r.Pass? ==>
      && f.attrs[0] == RstestAttr(CrateName(lookup, "rstest").value)
      && ContextVar(f.inputs) == Success(Some(f.block.stmts[0].ctx))
      && CountIn(f.block, old(f.block)) == 1
  {
    r := ExpandAttribute(f, lookup);
    if r.Fail? {
      return;
    }
    var binding := ContextBinding(f);
    if binding.Failure? {
      return Fail(binding.error);
    }
    r := ExpandBody(f, binding.value, lookup);
  }

  // The tests of `context_binding`, as facts about the scan.

  /** `fn my_test(a: usize, b: String)`: no context parameter. */
  lemma ContextVarWithoutContextArg()
    ensures ContextVar([Typed([], Ident("a"), "usize"), Typed([], Ident("b"), "String")]) == Success(None)
  {
  }

  /** `fn my_test(a: usize, #[context] toto: Context)`. */
  lemma ContextVarFindsContextArg()
    ensures ContextVar([Typed([], Ident("a"), "usize"), ContextArg("toto")]) == Success(Some("toto"))
  {
    ContextArgIsRecognised("toto");
  }

  /** `fn my_test(self, a: usize)` panics. */
  lemma ContextVarRejectsSelf()
    ensures ContextVar([Receiver, Typed([], Ident("a"), "usize")]) == Failure(SelfNotSupported)
  {
  }
}
