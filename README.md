# rstest-insta rewriter, modelled in Dafny

`#[rstest_insta]` is an attribute macro. It rewrites a test function so that
`rstest` parameterised cases and `insta` snapshots work together. Each case
writes its snapshot under its own suffix instead of overwriting the others.
The rewrite has three steps, applied in order to the function, which is owned
and changed in place:

1. `expand_attribute` puts `#[<rstest>::rstest]` in front of the function's
   attributes.
2. `context_binding` looks for the first parameter marked `#[context]` that
   binds a plain identifier. If there is none, it adds
   `#[context] __rstest_insta__ctx: Context` as the first parameter. It
   returns the name of the context parameter.
3. `expand_body` replaces the body with two statements:
   - a `let` that computes the suffix from the context;
   - `insta::with_settings!({snapshot_suffix => …}, { <original block> })`.

The crates are named by absolute paths. A crate resolver finds them through
the `Cargo.toml` of the crate being compiled.

The repository has two near-identical copies of the rewriter. `src/codegen.rs`
panics when its parameter scan meets a `self` receiver.
`crates/macros/src/codegen.rs` passes over a receiver. The module `Agreement`
proves three facts about them:

- the two scans agree on every parameter list without a receiver;
- when the strict scan does not abort, it returns what the lenient scan returns;
- a receiver placed after the first context parameter, at any index, is never reached (`ReceiverAfterMatchIsNotReached`).

A consequence of the lenient copy is visible in `MacrosCodegen.ContextBinding`.
For `fn f(self, a: usize)` it inserts the context parameter at index 0, in
front of `self`.

Layout:

- `wrappers.dfy`: `Option`, `Result`, `Outcome`.
- `syntax.dfy`: the syntax tree and the class `ItemFn`. Also `Insert`
  (`Vec::insert`) and `CountIn`, the number of copies of a block inside
  another block.
- `utils.dfy`: the crate resolver.
- `codegen_common.dfy`: the fragments that both copies quote identically:
  - the `#[context]` attribute and the added context parameter;
  - the rstest attribute;
  - the rewritten body;
  - the per-parameter test of the scan.
- `snapshot_suffix.dfy`: the suffix rule and the decimal form of the case
  number.
- `root_codegen.dfy`, `macros_codegen.dfy`: the two rewriters. Their steps
  are methods that update an `ItemFn` in place. A panic is returned as an
  `Outcome`/`Result` failure carrying a `Panic` value.
- `agreement.dfy`: how the two scans relate.

## Model

| member | source | states |
|---|---|---|
| `Utils.ResolveCrateName` | crates/macros/src/utils.rs:11-22 | the result is always an absolute path of exactly one segment: `::crate_name` when the crate is itself, `::name` for a crate found under `name` |
| `Utils.ResolveIgnoresRequestedName` | crates/macros/src/utils.rs:17-20 | with `FoundCrate::Name(m)` the requested name has no effect on the path |
| `Utils.ResolveSamePathIffSameTarget` | crates/macros/src/utils.rs:11-22 | two resolutions give the same path if and only if they name the same crate |
| `Utils.CrateName` | crates/macros/src/utils.rs:5-9 | a failed lookup aborts with `MissingCrate` for that name, and only a failed lookup does; otherwise the result is `resolve_crate_name` of what was found |
| `Utils.ResolveCrateNameTestCases` | crates/macros/src/utils.rs:31-61 | the two resolver tests: `Itself` gives `::rstest_insta`; `Name("rstest")` requested as `orig_crate_name` gives `::rstest` |
| `Syntax.Insert` | src/codegen.rs:28 | `insert(0, x)` puts `x` at index 0 and shifts every existing element right by one, keeping their order |
| `CodegenCommon.ContextArgIsRecognised` | src/codegen.rs:51-54 | the parameter `#[context] <name>: Context` that the binder adds is recognised by the scan under that name |
| `CodegenCommon.AddedContextArgIsOnlyMarked` | src/codegen.rs:45-56 | if no parameter carries `#[context]`, then after the insertion at index 0 exactly one parameter carries it, the added one at index 0 |
| `CodegenCommon.SnapshotBodySeparatesCases` | src/codegen.rs:97-103 | when run with a case's context, the rewritten body's `let` binds that case's suffix. Two cases without a description and with different case numbers bind different suffixes, so their snapshots are kept apart |
| `CodegenCommon.SnapshotBody` | src/codegen.rs:97-104 | the new body has exactly two statements: a `let` of the suffix read from the context binding, then `with_settings!`, whose `snapshot_suffix` is that `let`'s variable and whose inner block is the original block verbatim; the original block occurs exactly once in the new body |
| `SnapshotSuffix.Decimal` | src/codegen.rs:99 | `to_string` of the case number is a non-empty string of digits, with a leading `0` only for the number 0, which prints as `"0"` |
| `SnapshotSuffix.DecimalRoundTrip` | src/codegen.rs:99 | reading the decimal form back gives the number |
| `SnapshotSuffix.DecimalInjective` | src/codegen.rs:99 | different case numbers have different decimal forms |
| `SnapshotSuffix.Suffix` | src/codegen.rs:99 | the suffix is the description when there is one; otherwise it is exactly `Decimal` of the case number, or of 0 when the case is absent, which gives `"0"`. It has no leading zero, and it parses back to that number |
| `SnapshotSuffix.SuffixSeparatesCases` | src/codegen.rs:99-100 | two contexts without a description whose case numbers differ (an absent case counts as 0) get different snapshot suffixes |
| `SnapshotSuffix.MissingCaseSharesSuffixWithCaseZero` | src/codegen.rs:99 | an absent case number gives the same suffix as case 0 |
| `SnapshotSuffix.SuffixExamples` | src/codegen.rs:99 | `Some("alpha")` gives `alpha`; case 3 gives `3`; case 12 gives `12`; neither gives `0` |
| `RootCodegen.ContextVar` | src/codegen.rs:70-88 | scans in signature order. It aborts with `SelfNotSupported` if and only if a receiver comes before every context identifier parameter. It returns `None` if and only if there is neither a receiver nor a context identifier parameter. Otherwise it returns the identifier of the first context identifier parameter, and no receiver precedes it |
| `RootCodegen.ExpandAttribute` | src/codegen.rs:23-30 | aborts with `MissingCrate("rstest")` and leaves the attributes alone if rstest is not found; otherwise the attributes become the rstest attribute inserted at index 0 of the old ones. Only the attributes may change |
| `RootCodegen.ContextBinding` | src/codegen.rs:42-58 | a scan abort is passed on with the parameters unchanged. A found identifier is returned with the parameters unchanged. Otherwise `#[context] __rstest_insta__ctx: Context` is inserted at index 0 and that name is returned. On success the scan of the new parameters finds the returned name. Only the parameters may change |
| `RootCodegen.ExpandBody` | src/codegen.rs:90-108 | aborts with `MissingCrate("insta")` and leaves the body alone if insta is not found; otherwise the body becomes the snapshot body around the old block. Only the body may change |
| `RootCodegen.Expand` | src/codegen.rs:13-18 | aborts on the first failure, in this order: rstest missing, receiver met, insta missing; it succeeds if and only if none occurs. A missing rstest leaves the function untouched. On success the attributes, parameters and body are exactly those of the three steps in order. The rstest attribute is at index 0, the body's suffix reads a parameter that the scan of the new signature returns, and the original block occurs exactly once. The name is unchanged |
| `RootCodegen.ContextVarWithoutContextArg` | src/codegen.rs:173-188 | `fn my_test(a: usize, b: String)` has no context parameter |
| `RootCodegen.ContextVarFindsContextArg` | src/codegen.rs:243-257 | `fn my_test(a: usize, #[context] toto: Context)` binds `toto` |
| `RootCodegen.ContextVarRejectsSelf` | src/codegen.rs:207-222 | `fn my_test(self, a: usize)` aborts with `SelfNotSupported` |
| `MacrosCodegen.ContextVar` | crates/macros/src/codegen.rs:43-61 | returns `None` if and only if no parameter is a context identifier parameter; otherwise returns the identifier of the first one in signature order. Receivers never abort it |
| `MacrosCodegen.ExpandAttribute` | crates/macros/src/codegen.rs:17-24 | aborts with `MissingCrate("rstest")` and leaves the attributes alone if rstest is not found; otherwise inserts the rstest attribute at index 0. Only the attributes may change |
| `MacrosCodegen.ContextBinding` | crates/macros/src/codegen.rs:26-41 | never aborts. A found identifier is returned with the parameters unchanged. Otherwise `#[context] DEFAULT_CTX_BINDING: Context` is inserted at index 0 and `DEFAULT_CTX_BINDING` is returned. The scan of the new parameters always finds the returned name |
| `MacrosCodegen.ExpandBody` | crates/macros/src/codegen.rs:63-81 | aborts with `MissingCrate("insta")` and leaves the body alone if insta is not found; otherwise wraps the old block in the snapshot body. Only the body may change |
| `MacrosCodegen.Expand` | crates/macros/src/codegen.rs:10-15 | aborts only for a missing rstest (first) or insta crate. A missing rstest leaves the function untouched. On success it is exactly the composition attribute, then binding, then body. The rstest attribute is at index 0, the suffix reads the parameter the scan finds, and the original block occurs exactly once |
| `MacrosCodegen.ContextVarFindsContextArg` | crates/macros/src/codegen.rs:122-136 | `fn my_test(#[context] my_context: Context)` binds `my_context` |
| `MacrosCodegen.ContextVarSkipsSelf` | crates/macros/src/codegen.rs:54 | `fn my_test(self, a: usize)` has no context parameter; it does not abort |
| `Agreement.StrictScanRefinesLenientScan` | src/codegen.rs:74-87 | on every parameter list the strict scan either aborts with `SelfNotSupported` or returns exactly what the lenient scan returns |
| `Agreement.ScansAgreeWithoutReceiver` | crates/macros/src/codegen.rs:47-60 | on a parameter list without a receiver the strict scan never aborts and returns what the lenient scan returns |
| `Agreement.ScansDivergeOnLeadingReceiver` | src/codegen.rs:81 | with a receiver first, the strict scan aborts and the lenient scan goes on with the remaining parameters |
| `Agreement.ReceiverAfterMatchIsNotReached` | src/codegen.rs:81-87 | suppose the parameter at index `i` is a context identifier parameter, and no receiver and no context identifier parameter comes before it. Then both scans return it, whatever follows, receivers included |

## Left out

- Tokens and spans: parsing into `syn` trees, `parse_quote!`, printing back with `into_token_stream`, and span hygiene are not modelled. Attribute arguments, types and user statements are opaque strings.
- Identifier validity: the model does not check that a name is a valid Rust identifier. `Ident::new` would panic on an invalid one, and that panic is not modelled.
- `src/utils.rs` is not part of this model. `src/codegen.rs` imports its `crate_name`, and the model takes it to behave like `crates/macros/src/utils.rs`.
- The `Cargo.toml` lookup (`proc_macro_crate::crate_name`) reads a file. It is the `lookup` parameter here.
- The proc-macro entry point and the test pretty-printer (`crates/macros/src/lib.rs`) are not modelled. Neither is the re-export crate `crates/macros-helpers`.
- The run-time behaviour of `rstest` (case expansion) and of `insta::with_settings!` (snapshot storage) is not modelled. Only the value of the suffix is.
- The case number is a `usize` in the source and an unbounded `nat` here. No upper bound on it is modelled.
- `RootCodegen.Expand`: after a receiver or insta abort, the contract says nothing about the function's state, which may be partly rewritten. A panic discards the function, so that state is never observed.
- `MacrosCodegen.Expand`: after an insta abort, the contract says nothing about the function's state, for the same reason.
- The tests compare against `.snap` files, which are not part of this model. Their expected outputs are stated only through the lemmas above.
