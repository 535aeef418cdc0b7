/**
 * Launch-plan selection (lines 65-73): either the shell is spawned and
 * fed the joined command line on its stdin, or the first token is spawned
 * directly with the remaining tokens as its arguments.
 */
module Launch {
  import opened Wrappers
  import opened Js
  import opened Calls
  import opened Settings

  datatype LaunchPlan =
    | ShellPlan(shell: JsValue, input: string)    // spawn(settings.shell); stdin.write(input)
    | DirectPlan(exe: JsValue, args: seq<string>) // spawn(exe, args)

  /** The condition at line 66. */
  predicate UsesShell(s: Settings, isPiping: bool): (shell: bool)
    ensures s.pipe == Bool(true) ==> shell
    ensures s.pipe == Str("auto") ==> (shell <==> isPiping)
    ensures !isPiping ==> (shell <==> s.pipe == Bool(true))
    ensures !LooselyEqualsAuto(s.pipe) ==> (shell <==> s.pipe == Bool(true))
  {
    (LooselyEqualsAuto(s.pipe) && isPiping) || s.pipe == Bool(true)
  }

  /** `args.join(' ')` on string tokens. */
  function JoinWithSpaces(tokens: seq<string>): string
  {
    if tokens == [] then ""
    else if |tokens| == 1 then tokens[0]
    else tokens[0] + " " + JoinWithSpaces(tokens[1..])
  }

  function CountNewlines(t: string): nat
  {
    if t == [] then 0 else (if t[0] == '\n' then 1 else 0) + CountNewlines(t[1..])
  }

  /** `.replace(/\n/g, '\\\\n')`: each newline becomes backslash, backslash, n. */
  function EscapeNewlines(t: string): (r: string)
    ensures '\n' !in r
    ensures |r| == |t| + 2 * CountNewlines(t)
    ensures '\n' !in t ==> r == t
  {
    if t == [] then ""
    else (if t[0] == '\n' then "\\\\n" else [t[0]]) + EscapeNewlines(t[1..])
  }

  /** Reads the three-character escape back as a newline. */
  function UnescapeNewlines(r: string): string
  {
    if r == [] then ""
    else if |r| >= 3 && r[..3] == "\\\\n" then "\n" + UnescapeNewlines(r[3..])
    else [r[0]] + UnescapeNewlines(r[1..])
  }

  /** For text without backslashes the escape loses nothing. */
  lemma {:induction false} EscapeRoundTrip(t: string)
    requires '\\' !in t
    ensures UnescapeNewlines(EscapeNewlines(t)) == t
  {
    if t != [] {
      var rest := EscapeNewlines(t[1..]);
      assert '\\' !in t[1..];
      EscapeRoundTrip(t[1..]);
      if t[0] == '\n' {
        UnescapeEscape(rest);
      } else {
        UnescapePlain(t[0], rest);
      }
      assert t == [t[0]] + t[1..];
    }
  }

  lemma UnescapeEscape(rest: string)
    ensures UnescapeNewlines("\\\\n" + rest) == "\n" + UnescapeNewlines(rest)
  {
    var r := "\\\\n" + rest;
    assert r[..3] == "\\\\n" && r[3..] == rest;
  }

  lemma UnescapePlain(c: char, rest: string)
    requires c != '\\'
    ensures UnescapeNewlines([c] + rest) == [c] + UnescapeNewlines(rest)
  {
    var r := [c] + rest;
    assert r[0] == c && r[1..] == rest;
  }

  /** Escaping distributes over concatenation. */
  lemma {:induction false} EscapeAppend(a: string, b: string)
    ensures EscapeNewlines(a + b) == EscapeNewlines(a) + EscapeNewlines(b)
  {
    if a != [] {
      var head := EscapeChar(a[0]);
      var rest := a[1..];
      assert (a + b)[0] == a[0] && (a + b)[1..] == rest + b;
      calc {
        EscapeNewlines(a + b);
      == { EscapeFirst(a + b); }
        head + EscapeNewlines(rest + b);
      == { EscapeAppend(rest, b); }
        head + (EscapeNewlines(rest) + EscapeNewlines(b));
      == { AppendAssociates(head, EscapeNewlines(rest), EscapeNewlines(b)); }
        (head + EscapeNewlines(rest)) + EscapeNewlines(b);
      == { EscapeFirst(a); }
        EscapeNewlines(a) + EscapeNewlines(b);
      }
    } else {
      assert a + b == b;
    }
  }

  lemma AppendAssociates(x: string, y: string, z: string)
    ensures x + (y + z) == (x + y) + z
  {
  }

  /** What one character escapes to. */
  function EscapeChar(c: char): string
  {
    if c == '\n' then "\\\\n" else [c]
  }

  /** Escaping a text: the escape of its first character, then the escaped rest. */
  lemma EscapeFirst(t: string)
    requires t != []
    ensures EscapeNewlines(t) == EscapeChar(t[0]) + EscapeNewlines(t[1..])
  {
  }

  /**
   * The shell input holds no newline, and is the tokens, each escaped on
   * its own, in order, separated by single spaces.
   */
  function ShellInput(tokens: seq<string>): (input: string)
    ensures '\n' !in input
    ensures input == JoinWithSpaces(EscapeEach(tokens))
  {
    EscapeJoin(tokens);
    EscapeNewlines(JoinWithSpaces(tokens))
  }

  function EscapeEach(tokens: seq<string>): (r: seq<string>)
    ensures |r| == |tokens|
    ensures forall i | 0 <= i < |tokens| :: r[i] == EscapeNewlines(tokens[i])
  {
    if tokens == [] then [] else [EscapeNewlines(tokens[0])] + EscapeEach(tokens[1..])
  }

  lemma {:induction false} EscapeJoin(tokens: seq<string>)
    ensures EscapeNewlines(JoinWithSpaces(tokens)) == JoinWithSpaces(EscapeEach(tokens))
    decreases |tokens|
  {
    if |tokens| > 1 {
      EscapeJoin(tokens[1..]);
      EscapeAppend(tokens[0] + " ", JoinWithSpaces(tokens[1..]));
      EscapeAppend(tokens[0], " ");
      assert EscapeEach(tokens)[1..] == EscapeEach(tokens[1..]);
    } else if |tokens| == 1 {
      assert EscapeEach(tokens) == [EscapeNewlines(tokens[0])];
    }
  }

  /**
   * The plan lines 66-73 carry out for a token list: the shell exactly
   * when UsesShell holds; otherwise the first token (undefined for an
   * empty list) and the remaining tokens, in order.
   */
  function Plan(s: Settings, isPiping: bool, tokens: seq<string>): (p: LaunchPlan)
    ensures p.ShellPlan? <==> UsesShell(s, isPiping)
    ensures p.ShellPlan? ==> p.shell == s.shell && p.input == ShellInput(tokens)
    ensures p.DirectPlan? && tokens != [] ==> p.exe == Str(tokens[0]) && [tokens[0]] + p.args == tokens
    ensures p.DirectPlan? && tokens == [] ==> p.exe == Undefined && p.args == []
  {
    if UsesShell(s, isPiping) then ShellPlan(s.shell, ShellInput(tokens))
    else if tokens == [] then DirectPlan(Undefined, [])
    else DirectPlan(Str(tokens[0]), tokens[1..])
  }

  /** The TypeError of calling `args.join` or `args.shift` on null or a plain object. */
  function MissingMethod(args: Arg, member: string): (e: Thrown)
    ensures e.name == "TypeError"
  {
    if args.NullArg? then Thrown("TypeError", "Cannot read properties of null (reading '" + member + "')")
    else Thrown("TypeError", "args." + member + " is not a function")
  }

  /**
   * Lines 65-73 on the normalised `args`, in their order.  In shell mode
   * the shell is spawned first (line 67), then the tokens are joined (line
   * 68); in direct mode the executable is shifted out of the array (line
   * 71, the caller's own array when it passed one), then spawned (line 72).
   * `plan` is the launch a token array asks for; `error` is the exception
   * that rejects the call, from `spawn` or from a missing `join`/`shift`;
   * `started` says a child process was created.
   */
  method LaunchPlanFor(s: Settings, isPiping: bool, args: Arg)
    returns (plan: Option<LaunchPlan>, error: Option<Thrown>, started: bool)
    requires IsObject(args)
    modifies if args.List? then {args.tokens} else {}
    ensures args.List? ==> plan == Some(Plan(s, isPiping, old(args.tokens.items)))
    ensures args.List? ==>
      args.tokens.items == (if UsesShell(s, isPiping) then old(args.tokens.items) else Plan(s, isPiping, old(args.tokens.items)).args)
    ensures args.List? ==> error == SpawnRefusal(SpawnFile(plan.value)) && (started <==> error.None?)
    ensures !args.List? ==> plan == None && error.Some? && error.value.name == "TypeError"
    ensures !args.List? && UsesShell(s, isPiping) ==>
      (started <==> SpawnRefusal(s.shell).None?) && (!started ==> error == SpawnRefusal(s.shell))
    ensures !args.List? && !UsesShell(s, isPiping) ==> !started
  {
    plan, error, started := None, None, false;
    if UsesShell(s, isPiping) {
      error := SpawnRefusal(s.shell);
      started := error.None?;
      if args.List? {
        plan := Some(ShellPlan(s.shell, ShellInput(args.tokens.items)));
      } else if started {
        error := Some(MissingMethod(args, "join"));
      }
    } else if !args.List? {
      error := Some(MissingMethod(args, "shift"));
    } else {
      var mainCmd := args.tokens.Shift();
      plan := Some(DirectPlan(mainCmd, args.tokens.items));
      error := SpawnRefusal(mainCmd);
      started := error.None?;
    }
  }

  /** The `file` argument `spawn` receives: the shell, or the executable. */
  function SpawnFile(p: LaunchPlan): JsValue
  {
    match p
    case ShellPlan(shell, _) => shell
    case DirectPlan(exe, _) => exe
  }

  /**
   * `spawn` validates its `file` argument before it creates a process and
   * throws a TypeError unless it is a non-empty string; the throw happens
   * inside the promise executor (line 67 or 72), so the call rejects.
   */
  function SpawnRefusal(file: JsValue): (refusal: Option<Thrown>)
    ensures refusal.None? <==> file.Str? && file.s != ""
    ensures refusal.Some? ==> refusal.value.name == "TypeError"
  {
    match file
    case Str(f) =>
      if f == "" then Some(Thrown("TypeError", "The argument 'file' cannot be empty"))
      else None
    case _ => Some(Thrown("TypeError", "The \"file\" argument must be of type string"))
  }

  /**
   * `exec([])`, or a string command with no tokens, launched directly:
   * `spawn` receives undefined and refuses it; so does a shell setting
   * that is not a string when the shell is used.
   */
  lemma SpawnRefusals(s: Settings, isPiping: bool, tokens: seq<string>)
    ensures !UsesShell(s, isPiping) && tokens == [] ==> SpawnRefusal(SpawnFile(Plan(s, isPiping, tokens))).Some?
    ensures !UsesShell(s, isPiping) && tokens != [] && tokens[0] == "" ==> SpawnRefusal(SpawnFile(Plan(s, isPiping, tokens))).Some?
    ensures UsesShell(s, isPiping) && !s.shell.Str? ==> SpawnRefusal(SpawnFile(Plan(s, isPiping, tokens))).Some?
    ensures UsesShell(s, isPiping) && s.shell == Defaults.shell ==> SpawnRefusal(SpawnFile(Plan(s, isPiping, tokens))).None?
  {
  }

  /** With the default `pipe: 'auto'`, a string call goes through the shell exactly when it pipes. */
  lemma AutoPipeFollowsCommand(s: Settings, cmd: string)
    requires s.pipe == Defaults.pipe
    ensures UsesShell(s, HasUnescapedPipe(cmd)) <==> exists i | 0 <= i < |cmd| :: UnescapedPipeAt(cmd, i)
  {
  }

  /** `pipe: false` always launches directly; `pipe: true` always uses the shell. */
  lemma PipeOverrides(s: Settings, isPiping: bool)
    ensures s.pipe == Bool(false) ==> !UsesShell(s, isPiping)
    ensures s.pipe == Bool(true) ==> UsesShell(s, isPiping)
  {
  }
}
