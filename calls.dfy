/**
 * Call-shape normalisation of `exec(cmd, args, options)`: turning the three
 * arguments into a token list, an options value and the `isPiping` flag.
 */
module Calls {
  import opened Wrappers
  import opened Js

  /**
   * A JavaScript array of string tokens.  It is an object: the array a
   * caller passes as `cmd` is the same array that a direct launch later
   * shifts its executable out of.
   */
  class TokenArray {
    var items: seq<string>

    constructor (items: seq<string>)
      ensures this.items == items
    {
      this.items := items;
    }

    /** `Array.prototype.shift`: removes and returns the first element. */
    method Shift() returns (first: JsValue)
      modifies this
      ensures old(items) == [] ==> first == Undefined && items == []
      ensures old(items) != [] ==> first == Str(old(items)[0]) && items == old(items)[1..]
    {
      if items == [] {
        first := Undefined;
      } else {
        first := Str(items[0]);
        items := items[1..];
      }
    }
  }

  /** One argument of `exec`, as far as `typeof` and `isArray` tell it apart. */
  datatype Arg =
    | Absent                                // undefined: not passed
    | NullArg                               // null (typeof 'object')
    | Text(s: string)                       // a string
    | List(tokens: TokenArray)              // an array of strings
    | Record(props: map<string, JsValue>)   // a plain object
    | Primitive                             // a number, boolean, function or symbol

  /** `typeof a == 'object'` */
  predicate IsObject(a: Arg)
  {
    a.NullArg? || a.List? || a.Record?
  }

  /** The branches of the argument-mangling chain, in source order. */
  datatype CallShape =
    | ArrayShape        // cmd is an object: it is the token list, args the options
    | StringShape       // cmd is a string: it is tokenised, args the options
    | TwoStringShape    // cmd and args both strings
    | StringListShape   // cmd a string, args an array
    | Unsupported       // anything else: throws

  const UnsupportedCallMessage := "Unknown or unsupported way of calling exec()"

  /**
   * The branch the chain takes.  The string test comes before the two
   * tests that also need `args`, so those two branches can never be
   * taken: a second argument is always read as the options.
   */
  function Classify(cmd: Arg, args: Arg): (shape: CallShape)
    ensures shape != TwoStringShape && shape != StringListShape
    ensures cmd.Text? ==> shape == StringShape
    ensures shape == Unsupported <==> !IsObject(cmd) && !cmd.Text?
  {
    if IsObject(cmd) then ArrayShape
    else if cmd.Text? then StringShape
    else if cmd.Text? && args.Text? then TwoStringShape
    else if cmd.Text? && args.List? then StringListShape
    else Unsupported
  }

  /** A pipe character at index i with no backslash right before it. */
  predicate UnescapedPipeAt(s: string, i: int)
  {
    0 <= i < |s| && s[i] == '|' && (i == 0 || s[i - 1] != '\\')
  }

  /** The regular-expression test `/(?<!\\)\|/` scanning s from `from` on. */
  function PipeFrom(s: string, from: nat): (found: bool)
    requires from <= |s|
    ensures found <==> exists i | from <= i < |s| :: UnescapedPipeAt(s, i)
    decreases |s| - from
  {
    if from == |s| then false
    else UnescapedPipeAt(s, from) || PipeFrom(s, from + 1)
  }

  /** `isPiping` for a command string. */
  function HasUnescapedPipe(s: string): (found: bool)
    ensures found <==> exists i | 0 <= i < |s| :: UnescapedPipeAt(s, i)
  {
    PipeFrom(s, 0)
  }

  /** What normalisation leaves behind: `args`, `options` and `isPiping`. */
  datatype Normalized = Normalized(args: Arg, options: Arg, isPiping: bool)

  /**
   * Lines 14-30.  `tokenize` stands for the spawn-args library with
   * `removequotes: 'always'`.  The third argument is never read.
   * An unsupported shape throws inside the promise executor, so the
   * caller sees a rejection carrying the Error's message.
   */
  method NormalizeCall(tokenize: string -> seq<string>, cmd: Arg, args: Arg, options: Arg)
    returns (r: Result<Normalized, string>)
    ensures r.Failure? <==> Classify(cmd, args) == Unsupported
    ensures r.Failure? ==> r.error == UnsupportedCallMessage
    ensures IsObject(cmd) ==> r == Success(Normalized(cmd, args, false))
    ensures cmd.Text? ==>
      && r.Success? && r.value.options == args
      && r.value.isPiping == HasUnescapedPipe(cmd.s)
      && r.value.args.List? && fresh(r.value.args.tokens)
      && r.value.args.tokens.items == tokenize(cmd.s)
  {
    var isPiping := false;
    if IsObject(cmd) {
      r := Success(Normalized(cmd, args, isPiping));
    } else if cmd.Text? {
      isPiping := HasUnescapedPipe(cmd.s);
      var list := new TokenArray(tokenize(cmd.s));
      r := Success(Normalized(List(list), args, isPiping));
    } else {
      r := Failure(UnsupportedCallMessage);
    }
  }

  /** A string call with a pipe escaped as `\|` is not piping. */
  lemma EscapedPipesDoNotPipe(s: string)
    requires forall i | 0 <= i < |s| :: s[i] == '|' ==> i > 0 && s[i - 1] == '\\'
    ensures !HasUnescapedPipe(s)
  {
  }

  /** Appending `| x` to a command that does not end in a backslash makes it piping. */
  lemma PipeAfterCommand(a: string, b: string)
    requires a == [] || a[|a| - 1] != '\\'
    ensures HasUnescapedPipe(a + "|" + b)
  {
    assert UnescapedPipeAt(a + "|" + b, |a|);
  }
}
