/**
 * What the finalised pipeline does, stated over the registries a builder
 * holds after `get()`: user transformers registered before `get()`, followed
 * by the built-ins of the options at that moment.
 */
module Properties {
  import opened Wrappers
  import opened ErrorTypes
  import opened Transformers
  import opened Builder

  /**
   * The built-ins change at most three fields: `stack` (option on and the
   * error is an `Error` with a stack), `code` (the error is an object with a
   * code) and `message` (redaction on and the error unknown).
   */
  lemma BuiltinsEffect(options: Options, output: Output, error: Thrown, meta: Meta)
    ensures var r := ApplyAll(Builtins(options), output, error, meta);
      && r.message == (if !options.showUnknownErrorMessage && !meta.isKnown then RedactedMessage else output.message)
      && r.code == (if error.Code().Some? then error.Code() else output.code)
      && r.stack == (if options.showStackTrace && error.StackTrace().Some? then error.StackTrace() else output.stack)
      && r.name == output.name
      && r.extra == output.extra
  {
    var stackPart: seq<Transformer> := if options.showStackTrace then [StackForwarding] else [];
    var redactPart: seq<Transformer> := if options.showUnknownErrorMessage then [] else [UnknownMessageRedaction];
    assert Builtins(options) == stackPart + ([CodeForwarding] + redactPart);
    ApplyAllAppend(stackPart, [CodeForwarding] + redactPart, output, error, meta);
    var afterStack := ApplyAll(stackPart, output, error, meta);
    ApplyAllAppend([CodeForwarding], redactPart, afterStack, error, meta);
    if options.showStackTrace {
      ApplyAllSingle(StackForwarding, output, error, meta);
    }
    ApplyAllSingle(CodeForwarding, afterStack, error, meta);
    if !options.showUnknownErrorMessage {
      ApplyAllSingle(UnknownMessageRedaction, ApplyAll([CodeForwarding], afterStack, error, meta), error, meta);
    }
  }

  /**
   * The output of a mapper whose builder holds `users + Builtins(options)`:
   * the user transformers run first on the seed, then the built-ins overwrite
   * `stack`, `code` and `message` as their options and the error dictate.
   */
  lemma PipelineAfterGet(ms: seq<Mapping>, users: seq<Transformer>, options: Options, error: Thrown)
    ensures var known := Recognised(ms, error);
      var u := ApplyAll(users, Seed(FirstMatch(ms, error), error), error, Meta(known));
      var r := Pipeline(ms, users + Builtins(options), error);
      && r.message == (if !options.showUnknownErrorMessage && !known then RedactedMessage else u.message)
      && r.code == (if error.Code().Some? then error.Code() else u.code)
      && r.stack == (if options.showStackTrace && error.StackTrace().Some? then error.StackTrace() else u.stack)
      && r.name == u.name
      && r.extra == u.extra
  {
    var mappingResult := FirstMatch(ms, error);
    var meta := Meta(mappingResult.Some?);
    var seed := Seed(mappingResult, error);
    ApplyAllAppend(users, Builtins(options), seed, error, meta);
    BuiltinsEffect(options, ApplyAll(users, seed, error, meta), error, meta);
  }

  /**
   * An error no mapping recognises, with no user transformers: the message
   * is the error's own (or "Unknown error") unless redaction is on, `code` is
   * the error's code if it has one, `stack` appears only when the option is
   * on and the error is an `Error` with a stack, and nothing else is set.
   */
  lemma UnknownErrorOutput(ms: seq<Mapping>, options: Options, error: Thrown)
    requires !Recognised(ms, error)
    ensures Pipeline(ms, Builtins(options), error) == Output(
      message := if !options.showUnknownErrorMessage then RedactedMessage
                 else if error.ErrorInstance? then error.message
                 else UnknownErrorMessage,
      code := error.Code(),
      name := None,
      stack := if options.showStackTrace then error.StackTrace() else None,
      extra := map[])
  {
    assert [] + Builtins(options) == Builtins(options);
    PipelineAfterGet(ms, [], options, error);
  }

  /**
   * An error some mapping recognises, with no user transformers: the first
   * matching mapping's output, never redacted, with `code` and `stack`
   * forwarded as for any error.
   */
  lemma KnownErrorOutput(ms: seq<Mapping>, options: Options, error: Thrown)
    requires Recognised(ms, error)
    ensures FirstMatch(ms, error).Some?
    ensures var mapped := FirstMatch(ms, error).value;
      var r := Pipeline(ms, Builtins(options), error);
      && r.message == mapped.message
      && r.code == (if error.Code().Some? then error.Code() else mapped.code)
      && r.stack == (if options.showStackTrace && error.StackTrace().Some? then error.StackTrace() else mapped.stack)
      && r.name == mapped.name
      && r.extra == mapped.extra
  {
    var k :| 0 <= k < |ms| && ms[k](error).Some?;
    assert FirstMatch(ms, error).Some?;
    assert [] + Builtins(options) == Builtins(options);
    PipelineAfterGet(ms, [], options, error);
  }

  /**
   * A transformer registered before `get()` is the first to run: it receives
   * the raw seed (the mapped output, or the default output of an unknown
   * error), the raw error and the meta, and the built-ins run on its result.
   */
  lemma UserTransformerSeesSeed(ms: seq<Mapping>, f: UserTransformer, options: Options, error: Thrown)
    ensures var known := Recognised(ms, error);
      var seed := if known then FirstMatch(ms, error).value else DefaultOutput(error);
      Pipeline(ms, [Custom(f)] + Builtins(options), error)
        == ApplyAll(Builtins(options), f(seed, error, Meta(known)), error, Meta(known))
  {
    var mappingResult := FirstMatch(ms, error);
    var meta := Meta(mappingResult.Some?);
    var seed := Seed(mappingResult, error);
    ApplyAllAppend([Custom(f)], Builtins(options), seed, error, meta);
    ApplyAllSingle(Custom(f), seed, error, meta);
  }

  /**
   * Two `get()` calls append the built-ins twice. The result is the same as
   * one set of built-ins whose stack forwarding is on if either call had it,
   * and whose redaction is on if either call had it.
   */
  lemma BuiltinsTwice(first: Options, second: Options, output: Output, error: Thrown, meta: Meta)
    ensures ApplyAll(Builtins(first) + Builtins(second), output, error, meta)
         == ApplyAll(Builtins(Options(first.showStackTrace || second.showStackTrace,
                                      first.showUnknownErrorMessage && second.showUnknownErrorMessage)),
                     output, error, meta)
  {
    var combined := Options(first.showStackTrace || second.showStackTrace,
                            first.showUnknownErrorMessage && second.showUnknownErrorMessage);
    ApplyAllAppend(Builtins(first), Builtins(second), output, error, meta);
    BuiltinsEffect(first, output, error, meta);
    BuiltinsEffect(second, ApplyAll(Builtins(first), output, error, meta), error, meta);
    BuiltinsEffect(combined, output, error, meta);
  }

  /** Calling `get()` twice with unchanged options does not change any output. */
  lemma GetTwiceSameOptions(ms: seq<Mapping>, users: seq<Transformer>, options: Options, error: Thrown)
    ensures Pipeline(ms, users + Builtins(options) + Builtins(options), error)
         == Pipeline(ms, users + Builtins(options), error)
  {
    var mappingResult := FirstMatch(ms, error);
    var meta := Meta(mappingResult.Some?);
    var u := ApplyAll(users, Seed(mappingResult, error), error, meta);
    assert users + Builtins(options) + Builtins(options) == users + (Builtins(options) + Builtins(options));
    ApplyAllAppend(users, Builtins(options) + Builtins(options), Seed(mappingResult, error), error, meta);
    ApplyAllAppend(users, Builtins(options), Seed(mappingResult, error), error, meta);
    BuiltinsTwice(options, options, u, error, meta);
    assert Options(options.showStackTrace || options.showStackTrace,
                   options.showUnknownErrorMessage && options.showUnknownErrorMessage) == options;
  }

  /** The first match is the only result a short-circuiting search can return. */
  lemma ShortCircuitDeterminesResult(ms: seq<Mapping>, error: Thrown, invoked: nat, result: Option<Output>)
    requires ShortCircuited(ms, error, invoked, result)
    ensures result == FirstMatch(ms, error)
    ensures result.Some? <==> Recognised(ms, error)
  {
    if result.Some? {
      FirstMatchAt(ms, error, invoked - 1);
    } else {
      FirstMatchAt(ms, error, |ms|);
    }
  }

  /** `fromEnv` outside development and test gives the constructor's defaults. */
  lemma ProductionEnvIsDefault()
    ensures EnvOptions(false, false) == DefaultOptions()
  {
  }
}
