/**
 * The builder of an error mapper (ErrorMapperBuilder.ts): options, the three
 * registries that only grow, finalisation with its built-in transformers, and
 * the mapper it returns, which reads the builder's registries when it runs.
 */
module Builder {
  import opened Wrappers
  import opened ErrorTypes
  import opened Transformers

  /** The message of an unknown error that is not an `Error` instance. */
  const UnknownErrorMessage: string := "Unknown error"

  // ---------------------------------------------------------------------------
  // Options

  datatype Options = Options(showStackTrace: bool, showUnknownErrorMessage: bool)

  /** A `Partial<Options>`: a field that is None was not supplied. */
  datatype PartialOptions = PartialOptions(showStackTrace: Option<bool>, showUnknownErrorMessage: Option<bool>)

  /** The options of a builder constructed without any. */
  function DefaultOptions(): Options {
    Options(showStackTrace := false, showUnknownErrorMessage := false)
  }

  /** The options `fromEnv` derives from the environment flags. */
  function EnvOptions(isDevelopment: bool, isTest: bool): (r: Options)
    ensures r.showStackTrace == r.showUnknownErrorMessage
    ensures r.showStackTrace <==> isDevelopment || isTest
  {
    Options(isDevelopment || isTest, isDevelopment || isTest)
  }

  /** `{...current, ...update}`: the supplied fields win, the others are kept. */
  function MergeOptions(current: Options, update: PartialOptions): (r: Options)
    ensures update.showStackTrace.None? ==> r.showStackTrace == current.showStackTrace
    ensures update.showStackTrace.Some? ==> r.showStackTrace == update.showStackTrace.value
    ensures update.showUnknownErrorMessage.None? ==> r.showUnknownErrorMessage == current.showUnknownErrorMessage
    ensures update.showUnknownErrorMessage.Some? ==> r.showUnknownErrorMessage == update.showUnknownErrorMessage.value
  {
    Options(update.showStackTrace.GetOr(current.showStackTrace),
            update.showUnknownErrorMessage.GetOr(current.showUnknownErrorMessage))
  }

  /** The transformers `preconfigure` appends, in order: stack, code, redaction. */
  function Builtins(options: Options): seq<Transformer> {
    (if options.showStackTrace then [StackForwarding] else [])
    + [CodeForwarding]
    + (if options.showUnknownErrorMessage then [] else [UnknownMessageRedaction])
  }

  // ---------------------------------------------------------------------------
  // The pipeline, as functions of the registries

  /** Some mapping in `ms` recognises `error`. */
  ghost predicate Recognised(ms: seq<Mapping>, error: Thrown) {
    exists i :: 0 <= i < |ms| && ms[i](error).Some?
  }

  /** The result of the first mapping, in order, that returns a value. */
  function FirstMatch(ms: seq<Mapping>, error: Thrown): (r: Option<Output>)
    ensures r.Some? ==> exists i :: 0 <= i < |ms| && ms[i](error) == r
    ensures r.None? ==> forall i :: 0 <= i < |ms| ==> ms[i](error).None?
    decreases |ms|
  {
    if ms == [] then None
    else if ms[0](error).Some? then ms[0](error)
    else
      var r := FirstMatch(ms[1..], error);
      assert forall i :: 1 <= i < |ms| ==> ms[i] == ms[1..][i - 1];
      r
  }

  /**
   * `invoked` mappings were called, in order, and `result` is what the search
   * returned: every mapping called before the last one declined, the search
   * stopped at the first value, and it called every mapping when none matched.
   */
  ghost predicate ShortCircuited(ms: seq<Mapping>, error: Thrown, invoked: nat, result: Option<Output>) {
    && invoked <= |ms|
    && (forall i :: 0 <= i < invoked - 1 ==> ms[i](error).None?)
    && (result.Some? ==> 0 < invoked && ms[invoked - 1](error) == result)
    && (result.None? ==> invoked == |ms| && forall i :: 0 <= i < |ms| ==> ms[i](error).None?)
  }

  /** The output of an error no mapping recognised: its message if it is an `Error`, else "Unknown error". */
  function DefaultOutput(error: Thrown): Output {
    MessageOnly(if error.ErrorInstance? then error.message else UnknownErrorMessage)
  }

  /** `mappingResult ?? {message: ...}`: the seed of the transformer fold. */
  function Seed(mappingResult: Option<Output>, error: Thrown): Output {
    mappingResult.GetOr(DefaultOutput(error))
  }

  /** The output the mapper returns, given the registries it reads. */
  function Pipeline(ms: seq<Mapping>, ts: seq<Transformer>, error: Thrown): Output {
    var mappingResult := FirstMatch(ms, error);
    ApplyAll(ts, Seed(mappingResult, error), error, Meta(mappingResult.Some?))
  }

  // ---------------------------------------------------------------------------
  // The builder

  class ErrorMapperBuilder {
    var mappings: seq<Mapping>
    var onUnknownErrorListeners: seq<ListenerId>
    var outputTransformers: seq<Transformer>
    var options: Options

    /** `new ErrorMapperBuilder(options)`. */
    constructor (options: Options)
      ensures this.options == options
      ensures mappings == [] && onUnknownErrorListeners == [] && outputTransformers == []
    {
      this.options := options;
      mappings, onUnknownErrorListeners, outputTransformers := [], [], [];
    }

    /** `new ErrorMapperBuilder()`: stack traces and unknown messages hidden. */
    constructor WithDefaults()
      ensures options == DefaultOptions()
      ensures mappings == [] && onUnknownErrorListeners == [] && outputTransformers == []
    {
      options := DefaultOptions();
      mappings, onUnknownErrorListeners, outputTransformers := [], [], [];
    }

    /** `ErrorMapperBuilder.fromEnv(env)`, with the two flags of `env` as parameters. */
    static method FromEnv(isDevelopment: bool, isTest: bool) returns (builder: ErrorMapperBuilder)
      ensures fresh(builder)
      ensures builder.options == EnvOptions(isDevelopment, isTest)
      ensures builder.mappings == [] && builder.onUnknownErrorListeners == [] && builder.outputTransformers == []
    {
      builder := new ErrorMapperBuilder(EnvOptions(isDevelopment, isTest));
    }

    /** Shallow-merge `update` into the options; returns the builder. */
    method SetOptions(update: PartialOptions) returns (self: ErrorMapperBuilder)
      modifies this
      ensures self == this
      ensures options == MergeOptions(old(options), update)
      ensures mappings == old(mappings) && onUnknownErrorListeners == old(onUnknownErrorListeners)
      ensures outputTransformers == old(outputTransformers)
    {
      options := MergeOptions(options, update);
      self := this;
    }

    /** Append a transformer; returns the builder. */
    method RegisterOutputTransformer(transformer: Transformer) returns (self: ErrorMapperBuilder)
      modifies this
      ensures self == this
      ensures outputTransformers == old(outputTransformers) + [transformer]
      ensures mappings == old(mappings) && onUnknownErrorListeners == old(onUnknownErrorListeners)
      ensures options == old(options)
    {
      outputTransformers := outputTransformers + [transformer];
      self := this;
    }

    /** Append an unknown-error listener; returns the builder. */
    method OnUnknownError(listener: ListenerId) returns (self: ErrorMapperBuilder)
      modifies this
      ensures self == this
      ensures onUnknownErrorListeners == old(onUnknownErrorListeners) + [listener]
      ensures mappings == old(mappings) && outputTransformers == old(outputTransformers)
      ensures options == old(options)
    {
      onUnknownErrorListeners := onUnknownErrorListeners + [listener];
      self := this;
    }

    /** Append a mapping; returns the builder. */
    method RegisterMapping(mapping: Mapping) returns (self: ErrorMapperBuilder)
      modifies this
      ensures self == this
      ensures mappings == old(mappings) + [mapping]
      ensures onUnknownErrorListeners == old(onUnknownErrorListeners) && outputTransformers == old(outputTransformers)
      ensures options == old(options)
    {
      mappings := mappings + [mapping];
      self := this;
    }

    /** Append the built-in transformers the current options ask for. */
    method Preconfigure()
      modifies this
      ensures outputTransformers == old(outputTransformers) + Builtins(old(options))
      ensures mappings == old(mappings) && onUnknownErrorListeners == old(onUnknownErrorListeners)
      ensures options == old(options)
    {
      var self: ErrorMapperBuilder;
      if options.showStackTrace {
        self := RegisterOutputTransformer(StackForwarding);
      }
      self := RegisterOutputTransformer(CodeForwarding);
      if !options.showUnknownErrorMessage {
        self := RegisterOutputTransformer(UnknownMessageRedaction);
      }
    }

    /**
     * Finalise: append the built-ins after whatever transformers are already
     * registered, then return a mapper bound to this builder. Each call
     * appends the built-ins again.
     */
    method Get() returns (mapper: ErrorMapper)
      modifies this
      ensures fresh(mapper) && mapper.builder == this
      ensures outputTransformers == old(outputTransformers) + Builtins(old(options))
      ensures mappings == old(mappings) && onUnknownErrorListeners == old(onUnknownErrorListeners)
      ensures options == old(options)
    {
      Preconfigure();
      mapper := new ErrorMapper(this);
    }
  }

  /**
   * The function `get()` returns. It holds the builder itself, not a copy of
   * its registries, so it runs with whatever the builder holds at call time.
   */
  class ErrorMapper {
    const builder: ErrorMapperBuilder

    constructor (builder: ErrorMapperBuilder)
      ensures this.builder == builder
    {
      this.builder := builder;
    }

    /**
     * `computeInitialOutputForError`: call the mappings in order and stop at
     * the first that returns a value. `invoked` is how many were called.
     */
    method ComputeInitialOutput(error: Thrown) returns (mappingResult: Option<Output>, invoked: nat)
      ensures ShortCircuited(builder.mappings, error, invoked, mappingResult)
      ensures mappingResult.Some? <==> Recognised(builder.mappings, error)
      ensures mappingResult == FirstMatch(builder.mappings, error)
    {
      var ms := builder.mappings;
      invoked := 0;
      while invoked < |ms|
        invariant invoked <= |ms|
        invariant forall i :: 0 <= i < invoked ==> ms[i](error).None?
      {
        var result := ms[invoked](error);
        invoked := invoked + 1;
        if result.Some? {
          FirstMatchAt(ms, error, invoked - 1);
          return result, invoked;
        }
      }
      FirstMatchAt(ms, error, |ms|);
      return None, invoked;
    }

    /**
     * The mapper itself: find the seed, compute `isKnown`, call every listener
     * in order when the error is unknown, then fold the transformers. Returns
     * the output, how many mappings were called and the listener calls made.
     */
    method Apply(error: Thrown) returns (output: Output, invoked: nat, notified: seq<ListenerCall>)
      ensures output == Pipeline(builder.mappings, builder.outputTransformers, error)
      ensures ShortCircuited(builder.mappings, error, invoked, FirstMatch(builder.mappings, error))
      ensures Recognised(builder.mappings, error) ==> notified == []
      ensures !Recognised(builder.mappings, error) ==>
                |notified| == |builder.onUnknownErrorListeners| &&
                forall i :: 0 <= i < |notified| ==> notified[i] == ListenerCall(builder.onUnknownErrorListeners[i], error)
    {
      var mappingResult;
      mappingResult, invoked := ComputeInitialOutput(error);
      var errorMeta := Meta(isKnown := mappingResult.Some?);
      notified := [];
      if mappingResult.None? {
        var listeners := builder.onUnknownErrorListeners;
        var i := 0;
        while i < |listeners|
          invariant i <= |listeners|
          invariant |notified| == i
          invariant forall j :: 0 <= j < i ==> notified[j] == ListenerCall(listeners[j], error)
        {
          notified := notified + [ListenerCall(listeners[i], error)];
          i := i + 1;
        }
      }
      output := ApplyAll(builder.outputTransformers, Seed(mappingResult, error), error, errorMeta);
    }
  }

  /**
   * The first mapping that returns a value decides: if all mappings before
   * position k declined, FirstMatch is the k-th result (None when k is past the end).
   */
  lemma {:induction false} FirstMatchAt(ms: seq<Mapping>, error: Thrown, k: nat)
    requires k <= |ms|
    requires forall i :: 0 <= i < k ==> ms[i](error).None?
    requires k < |ms| ==> ms[k](error).Some?
    ensures FirstMatch(ms, error) == if k < |ms| then ms[k](error) else None
    ensures FirstMatch(ms, error).Some? <==> Recognised(ms, error)
    decreases k
  {
    if k > 0 {
      assert ms[0](error).None?;
      FirstMatchAt(ms[1..], error, k - 1);
    }
  }
}
