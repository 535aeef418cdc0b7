/**
 * The `close` handler (lines 115-125): the exit code decides between
 * resolving, with the accumulated output or with undefined, and rejecting
 * with `settings.rejectError` as it is.
 */
module Close {
  import opened Wrappers
  import opened Js
  import opened Settings

  /** The code the `close` event carries: a number, or null after a signal. */
  datatype ExitCode = Code(n: int) | NoCode

  function CodeValue(code: ExitCode): JsValue
  {
    match code
    case Code(n) => Num(n)
    case NoCode => Null
  }

  /** A rejection value: a settings value, or an exception thrown in the executor. */
  datatype Reason = Value(v: JsValue) | Exception(error: Thrown)

  /**
   * How one call of exec ends: the promise resolves or rejects, or an
   * exception escapes an event handler, Node exits and the promise never
   * settles.
   */
  datatype Outcome = Resolved(value: JsValue) | Rejected(reason: Reason) | Crashed(error: Thrown)

  /**
   * `settings.resolveCodes.includes(code)`: an array compares elements
   * with the code, a string looks for the code's text; any other value has
   * no `includes` method and the call throws.
   */
  function Includes(codes: JsValue, code: ExitCode): (r: Result<bool, Thrown>)
    ensures codes.Array? ==> r.Success? && (r.value <==> CodeValue(code) in codes.items)
    ensures codes.Str? && code.Code? ==> r.Success? && (r.value <==> ContainsText(codes.s, IntToString(code.n)))
    ensures codes.Str? && code.NoCode? ==> r.Success? && (r.value <==> ContainsText(codes.s, "null"))
    ensures r.Failure? <==> !codes.Array? && !codes.Str?
    ensures r.Failure? ==> r.error.name == "TypeError"
  {
    match codes
    case Array(items) => Success(CodeValue(code) in items)
    case Str(text) =>
      Success(ContainsText(text, match code case Code(n) => IntToString(n) case NoCode => "null"))
    case Undefined => Failure(Thrown("TypeError", "Cannot read properties of undefined (reading 'includes')"))
    case Null => Failure(Thrown("TypeError", "Cannot read properties of null (reading 'includes')"))
    case _ => Failure(Thrown("TypeError", "settings.resolveCodes.includes is not a function"))
  }

  /** Whether line 118 resolves with the buffer rather than undefined. */
  predicate AnyBuffering(s: Settings)
  {
    Truthy(s.buffer) || Truthy(s.bufferStdout) || Truthy(s.bufferStderr)
  }

  /**
   * Lines 116-124.  For an array of codes: resolves exactly when the code
   * is listed, otherwise rejects with rejectError unchanged.  A resolution
   * carries the whole accumulated output when any buffer setting is truthy
   * and undefined otherwise.  Nothing else rejects, and only a
   * resolveCodes without `includes` makes the handler throw.
   */
  function OnClose(s: Settings, outputBuffer: string, code: ExitCode): (r: Outcome)
    ensures s.resolveCodes.Array? ==>
      (r.Resolved? <==> CodeValue(code) in s.resolveCodes.items) &&
      (r.Rejected? <==> CodeValue(code) !in s.resolveCodes.items)
    ensures r.Rejected? ==> r.reason == Value(s.rejectError)
    ensures r.Resolved? ==> r.value == if AnyBuffering(s) then Str(outputBuffer) else Undefined
    ensures r.Crashed? <==> !s.resolveCodes.Array? && !s.resolveCodes.Str?
  {
    match Includes(s.resolveCodes, code)
    case Failure(e) => Crashed(e)
    case Success(accepted) =>
      if accepted then Resolved(if AnyBuffering(s) then Str(outputBuffer) else Undefined)
      else Rejected(Value(s.rejectError))
  }

  /**
   * With the default resolveCodes and rejectError: exit code 0 resolves,
   * every other code and a signal reject with "Non-zero exit code".
   */
  lemma DefaultCodes(s: Settings, outputBuffer: string, code: ExitCode)
    requires s.resolveCodes == Defaults.resolveCodes && s.rejectError == Defaults.rejectError
    ensures code == Code(0) ==> OnClose(s, outputBuffer, code).Resolved?
    ensures code != Code(0) ==> OnClose(s, outputBuffer, code) == Rejected(Value(Str("Non-zero exit code")))
  {
  }

  /** A text resolveCodes accepts every code whose decimal form it contains. */
  lemma TextCodes(s: Settings, outputBuffer: string, n: nat, before: string, after: string)
    requires s.resolveCodes == Str(before + NatToString(n) + after)
    ensures OnClose(s, outputBuffer, Code(n)).Resolved?
  {
    var text := before + NatToString(n) + after;
    assert text[|before|..|before| + |NatToString(n)|] == NatToString(n);
    assert OccursAt(text, IntToString(n), |before|);
  }
}
