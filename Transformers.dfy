/**
 * Output transformers: the three built-in ones that the builder registers
 * while it is finalised, user transformers, and the left fold (`reduce`)
 * that runs a list of them over a seed output.
 */
module Transformers {
  import opened Wrappers
  import opened ErrorTypes

  /** The message that replaces the message of an unknown error when redaction is on. */
  const RedactedMessage: string := "Internal server error. Please try again later."

  /** Stack forwarding: copy the stack of an `Error` instance that has one. */
  function ForwardStack(output: Output, error: Thrown): Output {
    if error.StackTrace().Some? then output.(stack := error.StackTrace()) else output
  }

  /** Code forwarding: copy the `code` field of an object that has one. */
  function ForwardCode(output: Output, error: Thrown): Output {
    if error.Code().Some? then output.(code := error.Code()) else output
  }

  /** Unknown-message redaction: hide the message of an error no mapping recognised. */
  function RedactUnknown(output: Output, meta: Meta): Output {
    if !meta.isKnown then output.(message := RedactedMessage) else output
  }

  /** An entry of the builder's transformer list. */
  datatype Transformer =
    | StackForwarding
    | CodeForwarding
    | UnknownMessageRedaction
    | Custom(transform: UserTransformer)

  /** One transformer call: `transformer(output, error, meta)`. */
  function Run(t: Transformer, output: Output, error: Thrown, meta: Meta): Output {
    match t
    case StackForwarding => ForwardStack(output, error)
    case CodeForwarding => ForwardCode(output, error)
    case UnknownMessageRedaction => RedactUnknown(output, meta)
    case Custom(f) => f(output, error, meta)
  }

  /** `ts.reduce((output, t) => t(output, error, meta), seed)`. */
  function ApplyAll(ts: seq<Transformer>, seed: Output, error: Thrown, meta: Meta): Output
    decreases |ts|
  {
    if ts == [] then seed else ApplyAll(ts[1..], Run(ts[0], seed, error, meta), error, meta)
  }

  /** Folding a concatenation folds the second list over the result of the first. */
  lemma {:induction false} ApplyAllAppend(a: seq<Transformer>, b: seq<Transformer>, seed: Output, error: Thrown, meta: Meta)
    ensures ApplyAll(a + b, seed, error, meta) == ApplyAll(b, ApplyAll(a, seed, error, meta), error, meta)
    decreases |a|
  {
    if a == [] {
      assert a + b == b;
    } else {
      assert (a + b)[0] == a[0];
      assert (a + b)[1..] == a[1..] + b;
      ApplyAllAppend(a[1..], b, Run(a[0], seed, error, meta), error, meta);
    }
  }

  /**
   * The k-th transformer receives the output of the first k, together with the
   * same raw error and the same meta: the fold is strictly sequential.
   */
  lemma ApplyAllStep(ts: seq<Transformer>, seed: Output, error: Thrown, meta: Meta, k: nat)
    requires k < |ts|
    ensures ApplyAll(ts[..k + 1], seed, error, meta) == Run(ts[k], ApplyAll(ts[..k], seed, error, meta), error, meta)
  {
    assert ts[..k + 1] == ts[..k] + [ts[k]];
    ApplyAllAppend(ts[..k], [ts[k]], seed, error, meta);
    assert [ts[k]][1..] == [];
  }

  /** Running a single transformer is calling it once. */
  lemma ApplyAllSingle(t: Transformer, seed: Output, error: Thrown, meta: Meta)
    ensures ApplyAll([t], seed, error, meta) == Run(t, seed, error, meta)
  {
    assert [t][1..] == [];
  }
}
