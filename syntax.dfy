/** The part of a parsed Rust function (`syn::ItemFn`) that the rewriter
    looks at or changes. Tokens the rewriter never inspects (a user statement,
    an attribute's arguments, a type) are kept as opaque strings. */
module Syntax {
  import opened Wrappers

  /** A path such as `context`, `::rstest` or `::rstest::rstest`. */
  datatype Path = Path(leadingColon: bool, segments: seq<string>)

  /** `Path::is_ident`: the path is exactly one bare identifier, with no
      leading `::`. */
  predicate IsIdent(p: Path, name: string) {
    !p.leadingColon && p.segments == [name]
  }

  /** An outer attribute `#[path args]`. */
  datatype Attr = Attr(path: Path, args: string)

  /** A parameter's pattern: a plain identifier (`x`, `mut x`) or anything
      else (a tuple, a struct pattern, `_`, ...). */
  datatype Pat = Ident(name: string) | NonIdent(tokens: string)

  /** `syn::FnArg`: a `self` receiver or a typed parameter `#[attrs] pat: ty`. */
  datatype Param = Receiver | Typed(attrs: seq<Attr>, pat: Pat, ty: string)

  /** A statement of a function body. User statements are opaque; the two
      other forms are the ones the body rewriter generates: the binding of the
      snapshot suffix, and the `with_settings!` scope around a nested block.
      At run time `SuffixLet(binding, ctx)` binds `binding` to
      `SnapshotSuffix.Suffix` of the context parameter `ctx` (see
      `CodegenCommon.SuffixLetValue`). */
  datatype Stmt =
    | Opaque(tokens: string)
    | SuffixLet(binding: string, ctx: string)
    | WithSettings(insta: Path, suffix: string, body: Block)

  datatype Block = Block(stmts: seq<Stmt>)

  /** Why an expansion aborts. */
  datatype Panic =
    | MissingCrate(crate: string)  // "missing crate in `Cargo.toml`"
    | SelfNotSupported             // "self type not supported": a receiver met by the strict scan

  /** A function definition, owned and updated in place by the rewriter:
      its attributes, its name, its parameters (`sig.inputs`) and its body. */
  class ItemFn {
    var attrs: seq<Attr>
    var name: string
    var inputs: seq<Param>
    var block: Block

    constructor (attrs: seq<Attr>, name: string, inputs: seq<Param>, block: Block)
      ensures this.attrs == attrs && this.name == name
      ensures this.inputs == inputs && this.block == block
    {
      this.attrs := attrs;
      this.name := name;
      this.inputs := inputs;
      this.block := block;
    }
  }

  /** `Vec::insert` / `Punctuated::insert`: `x` goes to index `i` and every
      element from `i` on moves one place to the right. */
  function Insert<T>(s: seq<T>, i: nat, x: T): (r: seq<T>)
    requires i <= |s|
    ensures |r| == |s| + 1 && r[i] == x
    ensures forall j :: 0 <= j < i ==> r[j] == s[j]
    ensures forall j :: i <= j < |s| ==> r[j + 1] == s[j]
  {
    s[..i] + [x] + s[i..]
  }

  // Sizes of syntax trees, used to show that a block never occurs strictly
  // inside itself.

  function BlockSize(b: Block): nat
    decreases b
  {
    1 + StmtsSize(b.stmts)
  }

  function StmtsSize(ss: seq<Stmt>): nat
    decreases ss
  {
    if ss == [] then 0 else StmtSize(ss[0]) + StmtsSize(ss[1..])
  }

  function StmtSize(s: Stmt): nat
    decreases s
  {
    match s
    case WithSettings(_, _, body) => 1 + BlockSize(body)
    case _ => 1
  }

  /** The number of blocks inside `b`, `b` itself included, that are equal
      to `target`. */
  function CountIn(b: Block, target: Block): nat
    decreases b
  {
    (if b == target then 1 else 0) + CountInStmts(b.stmts, target)
  }

  function CountInStmts(ss: seq<Stmt>, target: Block): nat
    decreases ss
  {
    if ss == [] then 0 else CountInStmt(ss[0], target) + CountInStmts(ss[1..], target)
  }

  function CountInStmt(s: Stmt, target: Block): nat
    decreases s
  {
    match s
    case WithSettings(_, _, body) => CountIn(body, target)
    case _ => 0
  }

  /** A block smaller than `target` contains no copy of it. */
  lemma {:induction false} SmallerBlockHasNoCopy(b: Block, target: Block)
    requires BlockSize(b) < BlockSize(target)
    ensures CountIn(b, target) == 0
    decreases b
  {
    SmallerStmtsHaveNoCopy(b.stmts, target);
  }

  lemma {:induction false} SmallerStmtsHaveNoCopy(ss: seq<Stmt>, target: Block)
    requires StmtsSize(ss) < BlockSize(target)
    ensures CountInStmts(ss, target) == 0
    decreases ss
  {
    if ss != [] {
      if ss[0].WithSettings? {
        SmallerBlockHasNoCopy(ss[0].body, target);
      }
      SmallerStmtsHaveNoCopy(ss[1..], target);
    }
  }

  /** Every block occurs exactly once in itself: its statements cannot hold
      another copy of it. */
  lemma {:induction false} BlockOccursOnceInItself(b: Block)
    ensures CountIn(b, b) == 1
  {
    SmallerStmtsHaveNoCopy(b.stmts, b);
  }
}
