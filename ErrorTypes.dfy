/**
 * The shapes the error mapper works on: the raw thrown value, the output
 * record, the metadata passed to transformers and the signatures of the
 * user-supplied mappings, transformers and listeners.
 */
module ErrorTypes {
  import opened Wrappers

  /**
   * Anything JavaScript code can throw, reduced to the runtime checks the
   * builder makes on it: `instanceof Error`, "a truthy value of type object",
   * `'stack' in error` and `'code' in error`.
   *   - ErrorInstance: an `Error` (or subclass) instance; it always has a
   *     `message`, may have a `stack` and may carry a `code` field.
   *   - PlainObject: any other non-null object; it may carry a `code`, and its
   *     other own fields (possibly named "message" or "stack") are in `fields`.
   *   - NonObject: every value that is falsy or whose `typeof` is not
   *     'object': `undefined`, `null`, a string, number, boolean, bigint,
   *     symbol or function. `text` describes the value; the built-ins never
   *     read it, but a user mapping may tell such values apart by it.
   */
  datatype Thrown =
    | ErrorInstance(message: string, stack: Option<string>, code: Option<string>)
    | PlainObject(code: Option<string>, fields: map<string, string>)
    | NonObject(text: string)
  {
    /** The `code` field seen by `error && typeof error === 'object' && 'code' in error`. */
    function Code(): Option<string> {
      match this
      case NonObject(_) => None
      case _ => code
    }

    /** The `stack` field seen by `error && error instanceof Error && 'stack' in error`. */
    function StackTrace(): Option<string> {
      if ErrorInstance? then stack else None
    }
  }

  /** The output record: a required `message`, optional `code`, `name`, `stack`, and extra fields. */
  datatype Output = Output(
    message: string,
    code: Option<string>,
    name: Option<string>,
    stack: Option<string>,
    extra: map<string, string>)

  /** An output that holds only a message. */
  function MessageOnly(message: string): Output {
    Output(message, None, None, None, map[])
  }

  /** What every transformer of one invocation receives besides the output and the raw error. */
  datatype Meta = Meta(isKnown: bool)

  /** A mapping recognises a raw error and produces an output, or declines with None. */
  type Mapping = Thrown -> Option<Output>

  /** A user transformer: (output so far, raw error, meta) to the next output. */
  type UserTransformer = (Output, Thrown, Meta) -> Output

  /** Unknown-error listeners are known by an identifier; their calls are recorded. */
  type ListenerId = nat

  /** One call of an unknown-error listener with the raw error as its argument. */
  datatype ListenerCall = ListenerCall(listener: ListenerId, error: Thrown)
}
