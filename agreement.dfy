/** How the two copies of the parameter scan relate: they differ only in
    what a `self` receiver does to them. */
module Agreement {
  import opened Wrappers
  import opened Syntax
  import opened CodegenCommon
  import RootCodegen
  import MacrosCodegen

  /** Whenever the strict scan does not abort, it finds what the lenient
      scan finds; when it aborts, it does so because of a receiver. */
  lemma {:induction false} StrictScanRefinesLenientScan(args: seq<Param>)
    ensures RootCodegen.ContextVar(args) == Success(MacrosCodegen.ContextVar(args)) ||
            RootCodegen.ContextVar(args) == Failure(SelfNotSupported)
    decreases |args|
  {
    if args != [] && args[0].Typed? && ContextIdent(args[0]).None? {
      StrictScanRefinesLenientScan(args[1..]);
    }
  }

  /** On a parameter list without a receiver the two scans agree. */
  lemma {:induction false} ScansAgreeWithoutReceiver(args: seq<Param>)
    requires forall i :: 0 <= i < |args| ==> !args[i].Receiver?
    ensures RootCodegen.ContextVar(args) == Success(MacrosCodegen.ContextVar(args))
    decreases |args|
  {
    if args != [] && ContextIdent(args[0]).None? {
      ScansAgreeWithoutReceiver(args[1..]);
    }
  }

  /** With a receiver in front, the strict scan aborts while the lenient one
      goes on with the parameters after it. */
  lemma ScansDivergeOnLeadingReceiver(args: seq<Param>)
    requires |args| > 0 && args[0].Receiver?
    ensures RootCodegen.ContextVar(args) == Failure(SelfNotSupported)
    ensures MacrosCodegen.ContextVar(args) == MacrosCodegen.ContextVar(args[1..])
  {
  }

  /** A receiver that comes after the first context parameter is never
      reached, so there the scans agree again: whatever follows index `i`,
      both return the parameter at `i` when no receiver and no context
      parameter comes before it. */
  lemma {:induction false} ReceiverAfterMatchIsNotReached(args: seq<Param>, i: nat)
    requires i < |args| && ContextIdent(args[i]).Some?
    requires forall j :: 0 <= j < i ==> !args[j].Receiver? && ContextIdent(args[j]).None?
    ensures RootCodegen.ContextVar(args) == Success(ContextIdent(args[i]))
    ensures MacrosCodegen.ContextVar(args) == ContextIdent(args[i])
    decreases i
  {
    if i > 0 {
      ReceiverAfterMatchIsNotReached(args[1..], i - 1);
    }
  }
}
