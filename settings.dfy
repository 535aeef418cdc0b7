/**
 * The settings object of one call: defaults, caller overrides, and the
 * mangling that fans the aggregate keys out to the per-stream ones.
 */
module Settings {
  import opened Js

  datatype Stream = Stdout | Stderr

  /** Every key index.js reads from its settings object. */
  datatype Settings = Settings(
    buffer: JsValue, bufferStdout: JsValue, bufferStderr: JsValue,
    log: JsValue, logStdout: JsValue, logStderr: JsValue,
    prefix: JsValue, prefixStdout: JsValue, prefixStderr: JsValue,
    reformat: JsValue, reformatStdout: JsValue, reformatStderr: JsValue,
    resolveCodes: JsValue, shell: JsValue, pipe: JsValue, rejectError: JsValue)

  const Defaults := Settings(
    Undefined, Bool(false), Bool(false),
    Undefined, Bool(false), Bool(false),
    Undefined, Undefined, Undefined,
    Undefined, Bool(true), Bool(true),
    Array([Num(0)]), Str("/bin/sh"), Str("auto"), Str("Non-zero exit code"))

  const Keys: set<string> := {
    "buffer", "bufferStdout", "bufferStderr",
    "log", "logStdout", "logStderr",
    "prefix", "prefixStdout", "prefixStderr",
    "reformat", "reformatStdout", "reformatStderr",
    "resolveCodes", "shell", "pipe", "rejectError"}

  /** `settings[key]`, for the keys above. */
  function Field(s: Settings, key: string): JsValue
  {
    match key
    case "buffer" => s.buffer
    case "bufferStdout" => s.bufferStdout
    case "bufferStderr" => s.bufferStderr
    case "log" => s.log
    case "logStdout" => s.logStdout
    case "logStderr" => s.logStderr
    case "prefix" => s.prefix
    case "prefixStdout" => s.prefixStdout
    case "prefixStderr" => s.prefixStderr
    case "reformat" => s.reformat
    case "reformatStdout" => s.reformatStdout
    case "reformatStderr" => s.reformatStderr
    case "resolveCodes" => s.resolveCodes
    case "shell" => s.shell
    case "pipe" => s.pipe
    case "rejectError" => s.rejectError
    case _ => Undefined
  }

  function Pick(props: map<string, JsValue>, key: string, default: JsValue): JsValue
  {
    if key in props then props[key] else default
  }

  /**
   * `{...defaults, ...options}`: every key the caller gives replaces the
   * default, even when the caller's value is undefined.
   */
  function Merge(props: map<string, JsValue>): (s: Settings)
    ensures forall key | key in Keys ::
      Field(s, key) == if key in props then props[key] else Field(Defaults, key)
  {
    Settings(
      Pick(props, "buffer", Defaults.buffer),
      Pick(props, "bufferStdout", Defaults.bufferStdout),
      Pick(props, "bufferStderr", Defaults.bufferStderr),
      Pick(props, "log", Defaults.log),
      Pick(props, "logStdout", Defaults.logStdout),
      Pick(props, "logStderr", Defaults.logStderr),
      Pick(props, "prefix", Defaults.prefix),
      Pick(props, "prefixStdout", Defaults.prefixStdout),
      Pick(props, "prefixStderr", Defaults.prefixStderr),
      Pick(props, "reformat", Defaults.reformat),
      Pick(props, "reformatStdout", Defaults.reformatStdout),
      Pick(props, "reformatStderr", Defaults.reformatStderr),
      Pick(props, "resolveCodes", Defaults.resolveCodes),
      Pick(props, "shell", Defaults.shell),
      Pick(props, "pipe", Defaults.pipe),
      Pick(props, "rejectError", Defaults.rejectError))
  }

  /** The settings slice one stream's handler reads (`settings[key + suffix]`). */
  datatype StreamConfig = StreamConfig(buffer: JsValue, log: JsValue, prefix: JsValue, reformat: JsValue)

  function Slice(s: Settings, stream: Stream): StreamConfig
  {
    match stream
    case Stdout => StreamConfig(s.bufferStdout, s.logStdout, s.prefixStdout, s.reformatStdout)
    case Stderr => StreamConfig(s.bufferStderr, s.logStderr, s.prefixStderr, s.reformatStderr)
  }

  /** An aggregate value that is not undefined wins over the per-stream one. */
  function Inherit(aggregate: JsValue, own: JsValue): JsValue
  {
    if aggregate != Undefined then aggregate else own
  }

  /** Whether line 113 or 114 attaches a data handler to the stream. */
  predicate Listens(s: Settings, stream: Stream)
  {
    var c := Slice(s, stream);
    Truthy(c.log) || Truthy(c.prefix) || Truthy(c.buffer)
  }

  /**
   * Lines 54-57: each aggregate key that is not undefined overwrites both
   * of its per-stream keys; nothing else changes.
   */
  method FanOut(given: Settings) returns (s: Settings)
    ensures s.bufferStdout == Inherit(given.buffer, given.bufferStdout)
    ensures s.bufferStderr == Inherit(given.buffer, given.bufferStderr)
    ensures s.logStdout == Inherit(given.log, given.logStdout)
    ensures s.logStderr == Inherit(given.log, given.logStderr)
    ensures s.prefixStdout == Inherit(given.prefix, given.prefixStdout)
    ensures s.prefixStderr == Inherit(given.prefix, given.prefixStderr)
    ensures s.reformatStdout == Inherit(given.reformat, given.reformatStdout)
    ensures s.reformatStderr == Inherit(given.reformat, given.reformatStderr)
    ensures s == given.(bufferStdout := s.bufferStdout, bufferStderr := s.bufferStderr,
                        logStdout := s.logStdout, logStderr := s.logStderr,
                        prefixStdout := s.prefixStdout, prefixStderr := s.prefixStderr,
                        reformatStdout := s.reformatStdout, reformatStderr := s.reformatStderr)
  {
    s := given;
    if s.buffer != Undefined {
      s := s.(bufferStdout := s.buffer, bufferStderr := s.buffer);
    }
    if s.log != Undefined {
      s := s.(logStdout := s.log, logStderr := s.log);
    }
    if s.prefix != Undefined {
      s := s.(prefixStdout := s.prefix, prefixStderr := s.prefix);
    }
    if s.reformat != Undefined {
      s := s.(reformatStdout := s.reformat, reformatStderr := s.reformat);
    }
  }

  /** The log a stream ends up with, given its prefix and its inherited log. */
  function ForcedLog(prefix: JsValue, log: JsValue): (r: JsValue)
    ensures Truthy(prefix) ==> r == ConsoleLog
    ensures r != Bool(true)
    ensures Truthy(r) <==> Truthy(prefix) || Truthy(log)
    ensures !Truthy(prefix) && log != Bool(true) ==> r == log
  {
    if Truthy(prefix) || log == Bool(true) then ConsoleLog else log
  }

  /**
   * Lines 58-61: a stream with a truthy prefix logs, and a log that is
   * exactly `true` becomes console.log; nothing else changes.
   */
  method ForceLogs(given: Settings) returns (s: Settings)
    ensures s.logStdout == ForcedLog(given.prefixStdout, given.logStdout)
    ensures s.logStderr == ForcedLog(given.prefixStderr, given.logStderr)
    ensures s == given.(logStdout := s.logStdout, logStderr := s.logStderr)
  {
    s := given;
    if Truthy(s.prefixStdout) {
      s := s.(logStdout := Bool(true));
    }
    if Truthy(s.prefixStderr) {
      s := s.(logStderr := Bool(true));
    }
    if s.logStdout == Bool(true) {
      s := s.(logStdout := ConsoleLog);
    }
    if s.logStderr == Bool(true) {
      s := s.(logStderr := ConsoleLog);
    }
  }

  /**
   * Lines 54-61, applied in place to the settings object.  The aggregate
   * keys and the launch keys are left as they are; each stream's buffer,
   * prefix and reformat inherit a defined aggregate; its log inherits the
   * aggregate log and is then forced as ForcedLog says.
   */
  method Mangle(given: Settings) returns (s: Settings)
    ensures s.buffer == given.buffer && s.log == given.log
    ensures s.prefix == given.prefix && s.reformat == given.reformat
    ensures s.resolveCodes == given.resolveCodes && s.shell == given.shell
    ensures s.pipe == given.pipe && s.rejectError == given.rejectError
    ensures forall stream :: Slice(s, stream) == Mangled(given, stream)
    ensures forall stream :: Truthy(Slice(s, stream).prefix) ==> Slice(s, stream).log == ConsoleLog
    ensures forall stream :: Slice(s, stream).log != Bool(true)
    ensures forall stream :: Listens(s, stream) <==> Truthy(Slice(s, stream).log) || Truthy(Slice(s, stream).buffer)
  {
    var spread := FanOut(given);
    s := ForceLogs(spread);
    assert Slice(s, Stdout) == Mangled(given, Stdout);
    assert Slice(s, Stderr) == Mangled(given, Stderr);
  }

  /** One stream's slice after mangling, in terms of the merged settings. */
  function Mangled(given: Settings, stream: Stream): StreamConfig
  {
    var g := Slice(given, stream);
    var prefix := Inherit(given.prefix, g.prefix);
    StreamConfig(
      Inherit(given.buffer, g.buffer),
      ForcedLog(prefix, Inherit(given.log, g.log)),
      prefix,
      Inherit(given.reformat, g.reformat))
  }

  const StreamKeys: set<string> := {
    "bufferStdout", "bufferStderr", "logStdout", "logStderr",
    "prefixStdout", "prefixStderr", "reformatStdout", "reformatStderr"}

  /**
   * Lines 33-61: the settings object of a call whose options have the given
   * own properties.  Every non-stream key is the caller's value when given
   * and the default otherwise; a given aggregate that is not undefined
   * decides both of its per-stream keys; otherwise the per-stream keys keep
   * the caller's or the default value.
   */
  method BuildSettings(props: map<string, JsValue>) returns (s: Settings)
    ensures forall key | key in Keys - StreamKeys :: Field(s, key) == Pick(props, key, Field(Defaults, key))
    ensures forall stream :: Slice(s, stream) == Mangled(Merge(props), stream)
    ensures Get(props, "buffer") != Undefined ==>
      s.bufferStdout == s.bufferStderr == props["buffer"]
    ensures Get(props, "prefix") != Undefined ==>
      s.prefixStdout == s.prefixStderr == props["prefix"]
    ensures Get(props, "reformat") != Undefined ==>
      s.reformatStdout == s.reformatStderr == props["reformat"]
    ensures Get(props, "buffer") == Undefined ==>
      s.bufferStdout == Pick(props, "bufferStdout", Bool(false)) &&
      s.bufferStderr == Pick(props, "bufferStderr", Bool(false))
    ensures Get(props, "prefix") == Undefined ==>
      s.prefixStdout == Get(props, "prefixStdout") &&
      s.prefixStderr == Get(props, "prefixStderr")
    ensures Get(props, "reformat") == Undefined ==>
      s.reformatStdout == Pick(props, "reformatStdout", Bool(true)) &&
      s.reformatStderr == Pick(props, "reformatStderr", Bool(true))
  {
    var merged := Merge(props);
    s := Mangle(merged);
    assert Slice(s, Stdout) == Mangled(merged, Stdout);
    assert Slice(s, Stderr) == Mangled(merged, Stderr);
    SameOutsideStreams(s, merged);
  }

  /** Settings that agree on the aggregate and launch keys agree on every non-stream key. */
  lemma SameOutsideStreams(a: Settings, b: Settings)
    requires a.buffer == b.buffer && a.log == b.log && a.prefix == b.prefix && a.reformat == b.reformat
    requires a.resolveCodes == b.resolveCodes && a.shell == b.shell && a.pipe == b.pipe
    requires a.rejectError == b.rejectError
    ensures forall key | key in Keys - StreamKeys :: Field(a, key) == Field(b, key)
  {
  }
}
