# Error mapper builder, modelled in Dafny

This project models `ErrorMapperBuilder` from `src/ErrorMapperBuilder.ts`. The
builder turns any thrown value into an output record that always has a
`message`. It works in two phases.

- **Builder phase.** The builder holds three registries that only grow:
  mappings, unknown-error listeners and output transformers. It also holds an
  options record that `setOptions` shallow-merges. `fromEnv` derives both
  options from the development and test flags of the environment.
- **Finalisation (`get()`).** `preconfigure()` appends the built-in
  transformers to the same transformer registry: stack forwarding (if
  `showStackTrace`), code forwarding (always), then unknown-message redaction
  (unless `showUnknownErrorMessage`). `get()` then returns a mapper. For each
  error the mapper:
  1. tries the mappings in order and stops at the first that returns a value;
  2. computes `isKnown`;
  3. calls every listener in order if nothing matched;
  4. left-folds the transformers over a seed. The seed is the mapping result,
     or `{message}` built from an `Error`'s message or "Unknown error".

Files:

- `Wrappers.dfy`: `Option`.
- `ErrorTypes.dfy`: the raw thrown value, the output record, `Meta`, and the
  mapping, transformer and listener shapes.
- `Transformers.dfy`: the three built-in transformers, the transformer list
  entry, and the `reduce` fold with its laws.
- `Builder.dfy`: options, the pipeline as functions of the registries, the
  class `ErrorMapperBuilder`, and the class `ErrorMapper` (the returned closure).
- `Properties.dfy`: end-to-end properties of a finalised pipeline.
- `Scenarios.dfy`: the scenarios of `src/__tests__/ErrorMapperBuilder.spec.ts`,
  written as calls on the builder and mapper classes, with assertions the
  verifier proves.

The raw thrown value has three cases that stand for the runtime checks the
code makes. `ErrorInstance` is an `Error` and is the only case that passes
`instanceof Error`. `PlainObject` is any other non-null object. `NonObject`
covers every value that fails `typeof error === 'object'` or is falsy:
`undefined`, `null`, strings, numbers, booleans, bigints, symbols and functions.

The mapper object holds a reference to its builder, not a copy of the
registries. `ErrorMapper.Apply` therefore runs with whatever the builder holds
when it is called.

Three facts about the code shape the model:

- The built-in transformers are appended inside `get()`
  (src/ErrorMapperBuilder.ts:54-55, :88-123), so they run after every
  transformer registered before `get()`. A user transformer sees the raw seed,
  and the built-ins overwrite `code`, `stack` and `message` after it.
- The mapper reads the builder's fields each time it runs (:57, :72, :77). A
  mapping registered after `get()` is used, and each further `get()` appends
  the built-ins again, which every earlier mapper then also runs
  (`Properties.BuiltinsTwice`).
- The seed message and stack forwarding both test `instanceof Error` (:82,
  :91). A plain object with a `message` or `stack` field gets "Unknown error"
  and no stack (`Scenarios.PlainObjectWithCode`).

## Model

| member | source | states |
|---|---|---|
| `Builder.ErrorMapperBuilder.constructor` | src/ErrorMapperBuilder.ts:10-19 | A new builder holds the given options and three empty registries. |
| `Builder.ErrorMapperBuilder.WithDefaults` | src/ErrorMapperBuilder.ts:14-17 | Without options, stack traces and unknown messages are both hidden, and the registries are empty. |
| `Builder.EnvOptions` | src/ErrorMapperBuilder.ts:32-37 | Both options are equal, and each is true exactly when the environment is development or test. |
| `Builder.ErrorMapperBuilder.FromEnv` | src/ErrorMapperBuilder.ts:32-37 | `fromEnv` returns a fresh builder with the environment's options and empty registries. |
| `Properties.ProductionEnvIsDefault` | src/ErrorMapperBuilder.ts:14-37 | Outside development and test, `fromEnv` gives the same options as the plain constructor. |
| `Builder.MergeOptions` | src/ErrorMapperBuilder.ts:21-27 | Each supplied option takes the supplied value; each option not supplied keeps its current value. |
| `Builder.ErrorMapperBuilder.SetOptions` | src/ErrorMapperBuilder.ts:21-27 | Options become the merge of the old options and the update; the registries are unchanged; the builder is returned. |
| `Builder.ErrorMapperBuilder.RegisterOutputTransformer` | src/ErrorMapperBuilder.ts:39-42 | Appends exactly one transformer at the end; nothing else changes; the builder is returned. |
| `Builder.ErrorMapperBuilder.OnUnknownError` | src/ErrorMapperBuilder.ts:44-47 | Appends exactly one listener at the end; nothing else changes; the builder is returned. |
| `Builder.ErrorMapperBuilder.RegisterMapping` | src/ErrorMapperBuilder.ts:49-52 | Appends exactly one mapping at the end; nothing else changes; the builder is returned. |
| `Builder.ErrorMapperBuilder.Preconfigure` | src/ErrorMapperBuilder.ts:88-123 | Appends the built-ins for the current options after the existing transformers: stack (if on), code, then redaction (if unknown messages are hidden). |
| `Builder.ErrorMapperBuilder.Get` | src/ErrorMapperBuilder.ts:54-55 | Every call appends the built-ins again, leaves mappings, listeners and options alone, and returns a new mapper bound to this builder. |
| `Builder.FirstMatch` | src/ErrorMapperBuilder.ts:56-63 | A result is the output of some mapping; no result means every mapping declined. |
| `Builder.FirstMatchAt` | src/ErrorMapperBuilder.ts:56-63 | If the mappings before position k all decline and mapping k returns a value, that value is the result; the result exists exactly when some mapping recognises the error. |
| `Builder.ErrorMapper.ComputeInitialOutput` | src/ErrorMapperBuilder.ts:56-63 | Mappings are called in order; all but the last one called declined; the search stops at the first value; it calls every mapping when none matches. |
| `Properties.ShortCircuitDeterminesResult` | src/ErrorMapperBuilder.ts:56-63 | Any search that stops at the first value returns the first match, and returns a value exactly when some mapping recognises the error. |
| `Builder.ErrorMapper.Apply` | src/ErrorMapperBuilder.ts:65-85 | The output is the fold of the builder's current transformers over the seed, with `isKnown` true exactly when some mapping matched. When nothing matched, every listener is called once, in order, with the raw error; otherwise no listener is called. |
| `Transformers.ApplyAllAppend` | src/ErrorMapperBuilder.ts:77-84 | Folding a concatenation folds the second list over the result of folding the first. |
| `Transformers.ApplyAllStep` | src/ErrorMapperBuilder.ts:77-84 | Transformer k receives the output of the first k transformers, the same raw error and the same meta. |
| `Properties.BuiltinsEffect` | src/ErrorMapperBuilder.ts:88-123 | The built-ins set `stack` only when the option is on and the error is an `Error` with a stack; set `code` only when the error is an object with a code; replace `message` only when redaction is on and the error is unknown; they leave everything else unchanged. |
| `Properties.PipelineAfterGet` | src/ErrorMapperBuilder.ts:54-123 | With user transformers before the built-ins, the final output is the user fold over the seed, with `stack`, `code` and `message` then overwritten by the built-in rules. |
| `Properties.UnknownErrorOutput` | src/ErrorMapperBuilder.ts:65-122 | With no match and no user transformers, the output is exactly: the redaction text, or the `Error`'s message, or "Unknown error"; the error's code; a stack only when enabled and present; nothing else. |
| `Properties.KnownErrorOutput` | src/ErrorMapperBuilder.ts:112-122 | With a match and no user transformers, the output keeps the mapped message (never redacted) and the mapped fields, with code and stack forwarded as for any error. |
| `Properties.UserTransformerSeesSeed` | src/ErrorMapperBuilder.ts:54-84 | A transformer registered before `get()` runs first: it receives the mapped output or the default output, the raw error and the meta, and the built-ins run on its result. |
| `Properties.BuiltinsTwice` | src/ErrorMapperBuilder.ts:88-123 | Two sets of built-ins act as one set where stack forwarding is on if either had it and redaction is on if either had it. |
| `Properties.GetTwiceSameOptions` | src/ErrorMapperBuilder.ts:54-55 | A second `get()` with unchanged options changes no output. |

## Left out

- Environment detection (`info` from `@pallad/app-env`) is not part of this model. `fromEnv` takes the development and test flags as parameters.
- `runIf` from `@pallad/builder` is modelled as a plain `if`.
- The generic output type `TOutput` is fixed to one record. Extra output fields are a map from names to strings, and `code` values are strings. Other JavaScript values in these fields are not modelled.
- A `stack` or `code` key that is present with the value `undefined` is not distinguished from an absent one.
- Object spread over arbitrary keys is abstracted into the output record. A user transformer cannot return an output without `message`.
- Exceptions thrown by user mappings, transformers or listeners are not modelled. All user functions are total.
- Listener side effects are recorded as a sequence of calls, and listeners are named by numbers. Mapping calls are observed as the count of mappings called.
- `Partial<Options>` with a field explicitly set to `undefined` is treated as not supplying that field. JavaScript spread would copy the `undefined`.
- A mapping can return only an output or nothing. Falsy non-`undefined` results are not representable, so the difference between the `if (mappingResult)` test and the `??` fallback is not modelled.
- User mappings, transformers and listeners are modelled as pure functions, so in-place mutation is not captured: a user transformer mutating the shared `errorMeta` record (src/ErrorMapperBuilder.ts:67-69), for instance flipping `isKnown` before the redaction at :113-121 runs; mutation of the object a mapping returned, which becomes the seed by reference at :81; and mutation of the builder from inside a user function.
- The constructor keeps the caller's options object by reference (src/ErrorMapperBuilder.ts:14); the model copies the options value, so later mutation of that object by the caller is not captured.
- Concurrent invocations of a mapper are not modelled. Each `Apply` call is sequential.
- `assets/code.ts` is a usage example that depends on an external validation library and is not part of this model.
