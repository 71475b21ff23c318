/** The fragments that both copies of `codegen.rs` build with `parse_quote!`
    in identical form, and the per-parameter test of the `context_var` scan. */
module CodegenCommon {
  import opened Wrappers
  import opened Syntax
  import opened SnapshotSuffix

  /** Name of the context parameter the rewriter adds when there is none. */
  const DefaultCtxBinding: string := "__rstest_insta__ctx"

  /** Name of the local variable that holds the snapshot suffix. */
  const SuffixBinding: string := "__rstest_insta__suffix"

  /** `#[context]`, with no arguments. */
  const ContextAttr: Attr := Attr(Path(false, ["context"]), "")

  /** `#[<rstest crate>::rstest]`: the rstest entry-point attribute. */
  function RstestAttr(rstestCrate: Path): Attr {
    Attr(Path(rstestCrate.leadingColon, rstestCrate.segments + ["rstest"]), "")
  }

  /** `#[context] <binding>: Context`. */
  function ContextArg(binding: string): Param {
    Typed([ContextAttr], Ident(binding), "Context")
  }

  /** Some attribute of the list is exactly `context` (its arguments play no part). */
  predicate HasContextAttr(attrs: seq<Attr>) {
    exists i :: 0 <= i < |attrs| && IsIdent(attrs[i].path, "context")
  }

  /** The two `filter_map` steps of `context_var` applied to one parameter:
      the identifier of a typed parameter that carries `#[context]` and whose
      pattern is a plain identifier, and nothing for any other parameter. */
  function ContextIdent(p: Param): (r: Option<string>)
    ensures r.Some? <==> p.Typed? && HasContextAttr(p.attrs) && p.pat.Ident?
    ensures r.Some? ==> r.value == p.pat.name
  {
    match p
    case Receiver => None
    case Typed(attrs, pat, _) =>
      if HasContextAttr(attrs) && pat.Ident? then Some(pat.name) else None
  }

  /** The parameter the rewriter adds is recognised by the scan, under the
      name it was given. */
  lemma ContextArgIsRecognised(binding: string)
    ensures ContextIdent(ContextArg(binding)) == Some(binding)
  {
    assert IsIdent(ContextArg(binding).attrs[0].path, "context");
  }

  /** A typed parameter carrying `#[context]`, whatever its pattern. */
  predicate Marked(p: Param) {
    p.Typed? && HasContextAttr(p.attrs)
  }

  /** When no parameter carries `#[context]`, the one the binder adds at
      index 0 is afterwards the only parameter that does. */
  lemma AddedContextArgIsOnlyMarked(params: seq<Param>)
    requires forall i :: 0 <= i < |params| ==> !Marked(params[i])
    ensures forall i :: 0 <= i <= |params| ==>
      (Marked(Insert(params, 0, ContextArg(DefaultCtxBinding))[i]) <==> i == 0)
  {
    var ps := Insert(params, 0, ContextArg(DefaultCtxBinding));
    assert IsIdent(ps[0].attrs[0].path, "context");
    forall i | 1 <= i <= |params|
      ensures !Marked(ps[i])
    {
      assert ps[i] == params[i - 1];
    }
  }

  /** The rewritten body: first bind the suffix computed from the context
      parameter, then run the original block, unchanged, inside a
      `with_settings!` scope whose `snapshot_suffix` is that binding. */
  function SnapshotBody(original: Block, ctxBinding: string, insta: Path): (b: Block)
    ensures |b.stmts| == 2 && b.stmts[0].SuffixLet? && b.stmts[1].WithSettings?
    ensures b.stmts[0].ctx == ctxBinding
    ensures b.stmts[1].suffix == b.stmts[0].binding
    ensures b.stmts[1].insta == insta && b.stmts[1].body == original
    ensures CountIn(b, original) == 1
  {
    var scope := WithSettings(insta, SuffixBinding, original);
    var b := Block([SuffixLet(SuffixBinding, ctxBinding), scope]);
    assert b.stmts[1..] == [scope] && [scope][1..] == [];
    assert StmtsSize([scope]) == 1 + BlockSize(original);
    assert StmtSize(b.stmts[0]) == 1 && CountInStmt(b.stmts[0], original) == 0;
    assert StmtsSize(b.stmts) == 1 + StmtsSize([scope]);
    assert CountInStmts(b.stmts, original) == CountInStmts([scope], original);
    assert CountInStmts([scope], original) == CountIn(original, original);
    BlockOccursOnceInItself(original);
    b
  }

  /** The string a generated statement binds when it runs with the context
      value `ctx`: the suffix rule for a `SuffixLet`, nothing for any other
      statement. */
  function SuffixLetValue(stmt: Stmt, ctx: Context): Option<string> {
    if stmt.SuffixLet? then Some(Suffix(ctx.description, ctx.caseNumber)) else None
  }

  /** Run with the context of a case, the rewritten body binds the suffix of
      that case and hands it to `with_settings!`; two cases without a
      description and with different case numbers bind different suffixes,
      so their snapshots do not overwrite each other. */
  lemma SnapshotBodySeparatesCases(original: Block, ctxBinding: string, insta: Path, c1: Context, c2: Context)
    requires c1.description.None? && c2.description.None?
    requires c1.caseNumber.GetOr(0) != c2.caseNumber.GetOr(0)
    ensures var b := SnapshotBody(original, ctxBinding, insta);
      && SuffixLetValue(b.stmts[0], c1) == Some(Suffix(c1.description, c1.caseNumber))
      && SuffixLetValue(b.stmts[0], c1) != SuffixLetValue(b.stmts[0], c2)
  {
    SuffixSeparatesCases(c1, c2);
  }
}
