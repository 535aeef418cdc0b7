# exec: a Dafny model of the process-execution wrapper

This project models `index.js` of the `exec` package: one function,
`exec(cmd, args, options)`, that wraps `child_process.spawn` in a promise.
The model covers the deterministic parts of one call:

- how the three arguments become a token list, an options value and the
  `isPiping` flag;
- how the settings object is built from defaults and caller options, and how
  the aggregate `buffer`/`log`/`prefix`/`reformat` keys are fanned out to
  their `*Stdout`/`*Stderr` keys;
- the choice between spawning the shell (fed the joined command line) and
  spawning the first token directly;
- the data handlers: one `outputBuffer` shared by both streams, prefixed
  multi-line chunks re-split on `/\s*\n\s*/` one level deep, and the calls
  made on the log sink, recorded as a trace;
- the `close` handler that maps the exit code to a resolution or rejection.

The child process is replaced by what it delivers: a sequence of data events
(stream and chunk text, in arrival order) and one exit code. The spawn-args
tokenizer is a parameter `tokenize: string -> seq<string>`.

Modules, leaves first: `Wrappers` (Option, Result), `Js` (the JavaScript
values the code inspects, truthiness, loose equality with `'auto'`), `Calls`
(call shapes, the pipe test), `Settings`, `Launch`, `Lines` (the split),
`Streams` (the `StreamProcessor` class), `Close`, `Exec` (one whole call).

Facts about the code that the proofs make explicit:

- `Calls.Classify`: a string first argument always takes the branch at line
  19. The branches at lines 23 and 26 are unreachable. So in
  `exec('echo', 'hello')` and `exec('echo', ['hello'])` the second argument
  is read as the options and never becomes arguments, and the third argument
  of `exec` is never read.
- A direct launch shifts the executable out of the caller's own array when
  the call passed an array (`Launch.LaunchPlanFor`, `Exec.Exec`).
- A function-valued prefix reaches `prefix.apply(this, buf)` with a string
  primitive as the argument list, which `Function.prototype.apply` refuses
  with a TypeError. The model records that exception
  (`Streams.Dispatch`); it never calls the prefix.
- A truthy log setting that is not a function (e.g. `log: 'yes'`) makes
  `.call` throw in the handler.
- The close handler only needs `resolveCodes` to have an `includes` method: a
  string `resolveCodes` accepts every code whose decimal text it contains
  (`Close.TextCodes`).

Trimming, JSON decoding, aliases, hashbang resolution, stdin input and a
function-valued `rejectError` are described for the package but not
implemented in `index.js`; the model follows the code.

## Model

| member | source | states |
|---|---|---|
| Calls.Classify | index.js:16-30 | the branches at lines 23 and 26 are never taken; a string `cmd` always takes line 19; the call is unsupported exactly when `cmd` is neither an object nor a string |
| Calls.HasUnescapedPipe | index.js:20 | `isPiping` holds exactly when some `\|` in the command string is at index 0 or follows a character other than a backslash |
| Calls.PipeFrom | index.js:20 | the regex scan from a position finds a match exactly when an unescaped pipe lies at or after that position |
| Calls.PipeAfterCommand | index.js:20 | a pipe after text that does not end in a backslash makes the command piping |
| Calls.EscapedPipesDoNotPipe | index.js:20 | a command whose every pipe is preceded by a backslash is not piping |
| Calls.NormalizeCall | index.js:13-30 | object `cmd`: it is the token list and `args` the options, never piping; string `cmd`: a fresh array of its tokens, `args` the options, `isPiping` from the pipe test; anything else fails with "Unknown or unsupported way of calling exec()" |
| Calls.TokenArray.Shift | index.js:71 | removes and returns the first token, or returns undefined on an empty array |
| Settings.Merge | index.js:33-51 | each known key takes the caller's value when the caller gives the key (even as undefined) and the default otherwise |
| Settings.FanOut | index.js:54-57 | each aggregate that is not undefined overwrites both of its per-stream keys; every other key is unchanged |
| Settings.ForcedLog | index.js:58-61 | a truthy prefix makes the log console.log whatever the caller gave; the result is never `true`; it is truthy exactly when prefix or log is; otherwise the log is kept |
| Settings.ForceLogs | index.js:58-61 | each stream's log becomes ForcedLog of its prefix and log; nothing else changes |
| Settings.Mangle | index.js:53-61 | aggregate and launch keys unchanged; each stream slice is Mangled of the merged settings; a truthy prefix forces console.log; no log stays `true`; a stream listens exactly when its log or buffer is truthy |
| Settings.BuildSettings | index.js:33-61 | non-stream keys are the caller's value or the default; a defined aggregate `buffer`/`prefix`/`reformat` from the caller decides both per-stream keys; otherwise the per-stream values are the caller's or the defaults (false, undefined, true) |
| Launch.EscapeNewlines | index.js:68 | the result has no newline, is two characters longer per newline, and is unchanged for text without newlines |
| Launch.EscapeRoundTrip | index.js:68 | for text without backslashes, reading each backslash-backslash-n back as a newline restores the text |
| Launch.EscapeAppend | index.js:68 | escaping distributes over concatenation |
| Launch.EscapeJoin | index.js:68 | escaping the space-joined tokens equals joining the tokens each escaped on its own |
| Launch.ShellInput | index.js:68 | the shell input has no newline and is the escaped tokens, in order, separated by single spaces |
| Launch.Plan | index.js:66-73 | the shell is used exactly when `(pipe == 'auto' && isPiping) \|\| pipe === true`, with `settings.shell` and ShellInput; otherwise the first token (undefined if none) is the executable and the rest are its arguments, in order |
| Launch.UsesShell | index.js:66 | `pipe: true` always uses the shell; `pipe: 'auto'` uses it exactly when piping; without piping, or with a pipe value not loosely equal to 'auto', only `pipe === true` uses it |
| Launch.LaunchPlanFor | index.js:64-73 | a token array yields Plan of its old contents. In shell mode the array is left as it was; in direct mode it keeps only the arguments (an empty array stays empty). A child starts exactly when `spawn` accepts the plan's file, and otherwise `spawn`'s TypeError rejects. Null or a plain object rejects with a TypeError. In shell mode the shell is checked and started first, so with an accepted shell a child is running when `join` fails; in direct mode `shift` fails before anything starts |
| Launch.SpawnRefusal | index.js:66-72 | `spawn` goes ahead exactly when its file (the shell or the executable) is a non-empty string, and otherwise throws a TypeError |
| Launch.SpawnRefusals | index.js:66-72 | a direct launch of no tokens or of an empty first token is refused, as is a shell setting that is not a string; the default shell is accepted |
| Launch.AutoPipeFollowsCommand | index.js:20 | with the default `pipe: 'auto'`, a string call uses the shell exactly when it has an unescaped pipe |
| Launch.PipeOverrides | index.js:66 | `pipe: false` never uses the shell; `pipe: true` always does |
| Lines.SplitLines | index.js:91 | `split(/\s*\n\s*/)` always returns at least one piece; text without a newline comes back whole as the only piece; text with a newline gives at least two pieces |
| Lines.PiecesHaveNoNewline | index.js:91 | no piece of `split(/\s*\n\s*/)` contains a newline |
| Lines.SplitDropsText | index.js:91 | the pieces together are never longer than the chunk, and strictly shorter when it has a newline |
| Lines.SplitJoinRoundTrip | index.js:91 | splitting undoes `join('\n')` for non-empty lines without newlines or blank ends |
| Lines.SplitAfterWord | index.js:91 | text without a newline or trailing blank joins the first piece of what follows |
| Lines.SplitAfterNewline | index.js:91 | a lone newline before a word is one separator and leaves an empty piece before it |
| Streams.Call | index.js:102-106 | calling the sink records its arguments when it is a function and throws otherwise |
| Streams.Dispatch | index.js:99-107 | at most one effect; none exactly when neither prefix nor log is truthy; a function prefix or a non-callable sink throws; a call goes to the stream's log with the prefix, if truthy, then the text |
| Streams.PlainChunk | index.js:96-97 | a chunk that is not re-split adds exactly itself to the buffer when the stream buffers, nothing otherwise, and is dispatched once |
| Streams.ResplitDropsBreaks | index.js:86-97 | a re-split chunk is never buffered whole: the buffer gains no newline and less than the chunk; when buffering and nothing throws it gains exactly the concatenated pieces |
| Streams.EachTextLoggedOnce | index.js:91-104 | with a prefix that is not a function and a callable log, each piece is logged exactly once, in order, as `log(prefix, piece)` |
| Streams.LinesLoggedOnce | index.js:86-104 | a chunk of trimmed lines joined by newlines is handled line by line: one `log(prefix, line)` per line, in order, and the buffer gains the lines without newlines |
| Streams.ReplayCrashCause | index.js:76-114 | the events are handled in arrival order; the call crashes exactly when some event reaches a handler that throws, and the crash is the exception of the first such event |
| Streams.ReplayOnlyAppends | index.js:76-97 | the shared buffer and the trace after some events are prefixes of those after more events |
| Streams.SharedAccumulator | index.js:76-97 | a stdout chunk then a stderr chunk append to the one accumulator in arrival order |
| Streams.StreamProcessor.constructor | index.js:76 | the accumulator starts empty and no call has been made |
| Streams.StreamProcessor.HandleText | index.js:82-83 | a string is buffered when the stream buffers and then dispatched, and is never split again |
| Streams.StreamProcessor.OnData | index.js:80-108 | the buffer and trace grow by the handled units: the whole chunk, or its pieces up to the first that throws |
| Streams.StreamProcessor.HandlePieces | index.js:91-92 | the pieces are handled in order, each once, stopping after the first that throws |
| Streams.StreamProcessor.Receive | index.js:113-114 | a chunk reaches the handler only when the stream's log, prefix or buffer is truthy; otherwise nothing changes |
| Close.Includes | index.js:116 | an array of codes includes the code exactly when it holds that number (null after a signal); a string does when it contains the code's decimal text ("null" after a signal); any other `resolveCodes` throws a TypeError |
| Close.OnClose | index.js:115-125 | for an array of codes: resolves exactly when the code is listed, with the buffer if any buffer setting is truthy and undefined otherwise; rejects with `rejectError` unchanged otherwise; throws only when `resolveCodes` has no `includes` |
| Close.DefaultCodes | index.js:46-49 | with the defaults, code 0 resolves and every other code or a signal rejects with "Non-zero exit code" |
| Close.TextCodes | index.js:116 | a string `resolveCodes` accepts a code whose decimal text occurs in it |
| Exec.Deliver | index.js:113-114 | the events reach the handlers in arrival order until one throws; the final state is Replay of the events |
| Exec.CrashIsFinal | index.js:80-108 | once a handler has thrown, later events change nothing |
| Exec.Exec | index.js:13-126 | an unsupported shape rejects with the Error and starts nothing. For any other shape, the settings are BuildSettings of `args`. A null or object `cmd` rejects with a TypeError; it has started the shell exactly when the shell is used and accepted, and a refused shell rejects with `spawn`'s error. For a token list, the plan is Plan of the tokens and a child starts exactly when `spawn` accepts its file; a refusal rejects with `spawn`'s TypeError before any event, otherwise the outcome is OnClose of the replayed buffer unless a handler threw. A caller's array is unchanged in shell mode and holds only the arguments after a direct launch |

## Left out

- Spawning, writing to the shell's stdin and wiring the events (index.js:67-69, 72, 113-115) are process I/O. The model stops at the launch plan and takes the data events and exit code as inputs.
- The spawn-args tokenizer (index.js:10, 22) is foreign code with no source here. It is the parameter `tokenize`.
- `Buffer#toString` decoding: chunks are given as text.
- Ordering between stdout and stderr events is decided by the event loop. The model takes any one arrival order as input.
- What Node does after an uncaught exception in a handler (the process exits and the promise never settles) is summarised as the `Crashed` outcome. Exception message texts are descriptive and not V8's exact wording.
- Arrays holding non-string values as the first argument, and objects with their own `toString`, `join`, `shift`, `includes` or `call` are not modelled. For example, a `log` option that is an object with a `call` method is invoked by the source, but `Streams.Call` records a TypeError for it.
- Numbers are integers: NaN, fractions and -0 are not modelled, including in truthiness and `includes`.
- Option keys other than the sixteen that `index.js` reads are copied by the spread but never read, so `Settings.Merge` drops them. So do the index keys that spreading an array or string adds.
- `this` in the sink call (the module's `this`) is not recorded in the trace.
- Behaviour the tests exercise but `index.js` does not implement is not modelled: split/join helpers, aliases, hashbang, JSON decoding, trimming, stdin input, and function-valued `rejectError`.
- The tests expect the rejection message to carry the exit code ('Non-zero exit code: 1'), and `rejectError: false` to reject with the code itself. `index.js:123` rejects with the `rejectError` setting unchanged, and the model follows the code: `Close.DefaultCodes` rejects with "Non-zero exit code", and `rejectError: false` rejects with `false`.
- Detecting redirection (`<`, `>`) in a string command is described for the package but not done at `index.js:20`. Only an unescaped pipe selects the shell.
- Exec.Exec: of `spawn`'s own checks, only the synchronous check of its file argument is modelled (`Launch.SpawnRefusal`). The null-byte checks of newer Node versions, and failures reported later through the child's `error` event (such as a missing executable), are not modelled. A shell started for a null or object `cmd` (before `join` fails at line 68) is reported as `started`; its never-ended stdin and its later events are not modelled.
