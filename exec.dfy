/**
 * One call of `exec(cmd, args, options)` (lines 13-126), with the child
 * process replaced by what it would deliver: the data events of its two
 * streams, in arrival order, and the exit code of its `close` event.
 */
module Exec {
  import opened Wrappers
  import opened Js
  import opened Calls
  import opened Settings
  import opened Launch
  import opened Streams
  import opened Close

  /** The own properties `...options` copies; index keys of arrays and strings name no setting. */
  function OwnProps(a: Arg): map<string, JsValue>
  {
    if a.Record? then a.props else map[]
  }

  /**
   * Normalises the call, builds the settings, launches, feeds the events to
   * the handlers and maps the exit code.  An unsupported call shape rejects
   * before anything is launched.  A file `spawn` refuses, or an `args`
   * without join/shift, rejects the call; in shell mode the shell has
   * already been started when `join` is found missing.  A handler that
   * throws ends everything with a crash.  A caller's array is joined as it
   * is, or loses its first token.
   */
  method Exec(tokenize: string -> seq<string>, cmd: Arg, args: Arg, options: Arg,
              events: seq<Event>, code: ExitCode)
    returns (outcome: Outcome, plan: Option<LaunchPlan>, started: bool, settings: Settings, trace: seq<Effect>)
    modifies if cmd.List? then {cmd.tokens} else {}
    ensures Classify(cmd, args) == Unsupported ==>
      outcome == Rejected(Exception(Thrown("Error", UnsupportedCallMessage))) && plan == None && !started && trace == []
    ensures IsObject(cmd) || cmd.Text? ==>
      && (forall key | key in Keys - StreamKeys :: Field(settings, key) == Pick(OwnProps(args), key, Field(Defaults, key)))
      && (forall stream :: Slice(settings, stream) == Mangled(Merge(OwnProps(args)), stream))
    ensures cmd.NullArg? || cmd.Record? ==>
      && plan == None && trace == []
      && outcome.Rejected? && outcome.reason.Exception? && outcome.reason.error.name == "TypeError"
      && (started <==> UsesShell(settings, false) && SpawnRefusal(settings.shell).None?)
      && (UsesShell(settings, false) && !started ==> outcome == Rejected(Exception(SpawnRefusal(settings.shell).value)))
    ensures cmd.List? ==> plan == Some(Plan(settings, false, old(cmd.tokens.items)))
    ensures cmd.List? ==>
      cmd.tokens.items == (if plan.value.ShellPlan? then old(cmd.tokens.items) else plan.value.args)
    ensures cmd.Text? ==> plan == Some(Plan(settings, HasUnescapedPipe(cmd.s), tokenize(cmd.s)))
    ensures plan.Some? ==> (started <==> SpawnRefusal(SpawnFile(plan.value)).None?)
    ensures plan.Some? && !started ==>
      outcome == Rejected(Exception(SpawnRefusal(SpawnFile(plan.value)).value)) && trace == []
    ensures plan.Some? && started ==>
      && trace == Replay(settings, events).trace
      && outcome == (var progress := Replay(settings, events);
                     if progress.crash.Some? then Crashed(progress.crash.value)
                     else OnClose(settings, progress.buffer, code))
  {
    plan, started, trace := None, false, [];
    settings := Defaults;
    var normalized := NormalizeCall(tokenize, cmd, args, options);
    if normalized.Failure? {
      outcome := Rejected(Exception(Thrown("Error", normalized.error)));
      return;
    }
    var n := normalized.value;
    settings := BuildSettings(OwnProps(n.options));
    var error;
    plan, error, started := LaunchPlanFor(settings, n.isPiping, n.args);
    if error.Some? {
      outcome := Rejected(Exception(error.value));
      return;
    }

    var handlers := new StreamProcessor(settings);
    var crash := Deliver(handlers, events);
    trace := handlers.trace;
    if crash.Some? {
      outcome := Crashed(crash.value);
    } else {
      outcome := OnClose(settings, handlers.outputBuffer, code);
    }
  }

  /**
   * The event loop handing the data events, in arrival order, to the
   * handlers of lines 113-114 until one of them throws.
   */
  method Deliver(handlers: StreamProcessor, events: seq<Event>) returns (crash: Option<Thrown>)
    requires handlers.outputBuffer == "" && handlers.trace == []
    modifies handlers
    ensures Replay(handlers.settings, events) == Progress(handlers.outputBuffer, handlers.trace, crash)
  {
    var i := 0;
    while i < |events|
      invariant 0 <= i <= |events|
      invariant Replay(handlers.settings, events[..i]) == Progress(handlers.outputBuffer, handlers.trace, None)
    {
      var e := events[i];
      assert events[..i + 1][..i] == events[..i];
      var threw := handlers.Receive(e.stream, e.chunk);
      i := i + 1;
      if threw {
        CrashIsFinal(handlers.settings, events, i);
        return Some(ThrownBy(Slice(handlers.settings, e.stream)));
      }
    }
    assert events[..i] == events;
    crash := None;
  }

  /** Events after a crash leave the replay as the crash left it. */
  lemma {:induction false} CrashIsFinal(s: Settings, events: seq<Event>, k: nat)
    requires k <= |events|
    requires Replay(s, events[..k]).crash.Some?
    ensures Replay(s, events) == Replay(s, events[..k])
    decreases |events| - k
  {
    if k == |events| {
      assert events[..k] == events;
    } else {
      assert events[..k + 1][..k] == events[..k];
      CrashIsFinal(s, events, k + 1);
    }
  }
}
