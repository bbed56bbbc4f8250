/**
 * The scenarios of the builder's test suite, written as calls on the builder
 * and mapper classes, with assertions the verifier proves of what each test expects.
 */
module Scenarios {
  import opened Wrappers
  import opened ErrorTypes
  import opened Transformers
  import opened Builder
  import opened Properties

  /** Mappings are tried in order and the search stops at the first value. */
  method StopsOnFirstMapping() {
    var notFound := MessageOnly("Not Found");
    var builder := new ErrorMapperBuilder(Options(showStackTrace := false, showUnknownErrorMessage := true));
    var self := builder.RegisterMapping(e => None);
    self := builder.RegisterMapping(e => Some(notFound));
    self := builder.RegisterMapping(e => None);
    var mapper := builder.Get();
    var error := ErrorInstance("test", Some("at test.ts:1"), None);
    var output, invoked, notified := mapper.Apply(error);
    FirstMatchAt(builder.mappings, error, 1);
    KnownErrorOutput(builder.mappings, builder.options, error);
    assert builder.outputTransformers == Builtins(builder.options);
    assert output.message == "Not Found";
    assert invoked == 2;
    assert notified == [];
  }

  /** Listeners are called in order with the raw error, and only for unknown errors. */
  method ListenersOnlyForUnknownErrors() {
    var error := ErrorInstance("test", None, None);
    var builder := new ErrorMapperBuilder.WithDefaults();
    var self := builder.OnUnknownError(1);
    self := builder.OnUnknownError(2);
    var mapper := builder.Get();
    var output, invoked, notified := mapper.Apply(error);
    assert notified == [ListenerCall(1, error), ListenerCall(2, error)];

    var knownBuilder := new ErrorMapperBuilder.WithDefaults();
    self := knownBuilder.RegisterMapping(e => Some(MessageOnly("Not Found")));
    self := knownBuilder.OnUnknownError(1);
    self := knownBuilder.OnUnknownError(2);
    var knownMapper := knownBuilder.Get();
    assert knownBuilder.mappings[0](error).Some?;
    output, invoked, notified := knownMapper.Apply(error);
    assert notified == [];
  }

  /** Redaction, stack and code forwarding on an unknown `Error` carrying a code. */
  method UnknownErrorPolicies() {
    var error := ErrorInstance("boom", Some("at boom.ts:7"), Some("E_BOOM"));

    var hidden := new ErrorMapperBuilder(Options(showStackTrace := false, showUnknownErrorMessage := false));
    var mapper := hidden.Get();
    var output, invoked, notified := mapper.Apply(error);
    assert hidden.outputTransformers == Builtins(hidden.options);
    UnknownErrorOutput([], hidden.options, error);
    assert output == Output(RedactedMessage, Some("E_BOOM"), None, None, map[]);

    var shown := new ErrorMapperBuilder(Options(showStackTrace := true, showUnknownErrorMessage := true));
    mapper := shown.Get();
    output, invoked, notified := mapper.Apply(error);
    assert shown.outputTransformers == Builtins(shown.options);
    UnknownErrorOutput([], shown.options, error);
    assert output == Output("boom", Some("E_BOOM"), None, Some("at boom.ts:7"), map[]);
  }

  /** A plain object with a code and a "message" field is still an unknown error of no message. */
  method PlainObjectWithCode() {
    var error := PlainObject(Some("E_X"), map["message" := "ignored"]);
    var builder := new ErrorMapperBuilder(Options(showStackTrace := true, showUnknownErrorMessage := true));
    var mapper := builder.Get();
    var output, invoked, notified := mapper.Apply(error);
    assert builder.outputTransformers == Builtins(builder.options);
    UnknownErrorOutput([], builder.options, error);
    assert output == Output(UnknownErrorMessage, Some("E_X"), None, None, map[]);
  }

  /** `setOptions` before `get()` decides which built-ins are appended. */
  method SetOptionsBeforeGet() {
    var error := ErrorInstance("test", Some("at test.ts:3"), None);
    var builder := new ErrorMapperBuilder.WithDefaults();
    var self := builder.SetOptions(PartialOptions(Some(true), None));
    assert builder.options == Options(true, false);
    var mapper := builder.Get();
    var output, invoked, notified := mapper.Apply(error);
    assert builder.outputTransformers == Builtins(builder.options);
    UnknownErrorOutput([], builder.options, error);
    assert output.stack == Some("at test.ts:3");
    assert output.message == RedactedMessage;
  }

  /**
   * A transformer registered before `get()` runs before the built-ins, on the
   * raw seed: the mapped output for a known error, `{message}` for an unknown one.
   */
  method FormatterReceivesSeed() {
    var mapped := MessageOnly("Invalid");
    var error1 := ErrorInstance("test", None, None);
    var error2 := ErrorInstance("test2", None, None);
    var formatter: UserTransformer := (o: Output, e: Thrown, m: Meta) => o.(extra := o.extra["fake" := "1"]);
    var builder := new ErrorMapperBuilder(Options(showStackTrace := false, showUnknownErrorMessage := true));
    var self := builder.RegisterMapping(e => if e == error1 then Some(mapped) else None);
    self := builder.RegisterOutputTransformer(Custom(formatter));
    var mapper := builder.Get();

    assert builder.mappings[0](error1).Some?;
    UserTransformerSeesSeed(builder.mappings, formatter, builder.options, error1);
    var output, invoked, notified := mapper.Apply(error1);
    BuiltinsEffect(builder.options, formatter(mapped, error1, Meta(true)), error1, Meta(true));
    assert output == Output("Invalid", None, None, None, map["fake" := "1"]);

    assert !Recognised(builder.mappings, error2);
    UserTransformerSeesSeed(builder.mappings, formatter, builder.options, error2);
    output, invoked, notified := mapper.Apply(error2);
    BuiltinsEffect(builder.options, formatter(MessageOnly("test2"), error2, Meta(false)), error2, Meta(false));
    assert output == Output("test2", None, None, None, map["fake" := "1"]);
  }

  /**
   * The mapper reads the builder's registries when it runs: a mapping
   * registered after `get()` is used, and a second `get()` appends the
   * built-ins again, which the first mapper sees too.
   */
  method MapperReadsLiveRegistries() {
    var error := ErrorInstance("test", None, None);
    var builder := new ErrorMapperBuilder(Options(showStackTrace := false, showUnknownErrorMessage := true));
    var mapper := builder.Get();
    var self := builder.RegisterMapping(e => Some(MessageOnly("Late")));
    var output, invoked, notified := mapper.Apply(error);
    FirstMatchAt(builder.mappings, error, 0);
    KnownErrorOutput(builder.mappings, builder.options, error);
    assert builder.outputTransformers == Builtins(builder.options);
    assert output.message == "Late";

    var second := builder.Get();
    assert |builder.outputTransformers| == 2;
    var again, invoked2, notified2 := mapper.Apply(error);
    GetTwiceSameOptions(builder.mappings, [], builder.options, error);
    assert [] + Builtins(builder.options) + Builtins(builder.options) == builder.outputTransformers;
    assert again == output;
  }
}
