/**
 * The shell's main loop: prompt, read a line with `fgets`, strip its
 * newline, tokenize it into `args`, dispatch, and repeat while `should_run`
 * is set. Standard input is the stream `stdin`; getenv("HOME") is `home`;
 * `rands(k)` is what rand() returns if it is called in iteration k.
 */
module Shell {
  import opened Optional
  import opened CString
  import opened LineInput
  import opened Tokenizer
  import opened Builtins

  /** What one iteration does with a chunk `fgets` returned. */
  function Interpret(chunk: string, home: Option<string>, rand: nat): Action
  {
    Dispatch(Tokens(CommandText(chunk)), home, rand)
  }

  /**
   * A blank or all-space line is not skipped: it reaches the fork branch
   * with an empty argument vector, and the loop goes on.
   */
  lemma BlankLineIsLaunched(n: nat, home: Option<string>, rand: nat)
    ensures Interpret(Spaces(n) + [NewLine], home, rand) == Launch([])
  {
    var blank := Spaces(n);
    var chunk := blank + [NewLine];
    StrlenUnique(chunk, |chunk|);
    assert CommandText(chunk) == blank;
    SkipLeadingSpaces(blank, n);
    assert blank[n..] == [];
    EmptyVectorIsLaunched(home, rand);
  }

  /**
   * What each chunk of the input would make the shell do, were the loop to
   * reach it: chunk k is interpreted with the k-th value of rand().
   */
  function Actions(lines: seq<string>, home: Option<string>, rands: nat -> nat): (acts: seq<Action>)
    ensures |acts| == |lines|
  {
    seq(|lines|, k requires 0 <= k < |lines| => Interpret(lines[k], home, rands(k)))
  }

  /** No action of `done` but possibly its last is `exit`. */
  predicate ExitOnlyLast(done: seq<Action>)
  {
    forall i :: 0 <= i < |done| - 1 ==> !done[i].Exit?
  }

  /** Appending to a sequence whose last action is not `exit` keeps `ExitOnlyLast`. */
  lemma ExitOnlyLastStep(done: seq<Action>, action: Action)
    requires ExitOnlyLast(done) && (done == [] || !done[|done| - 1].Exit?)
    ensures ExitOnlyLast(done + [action])
  {
    assert forall i :: 0 <= i < |done| ==> (done + [action])[i] == done[i];
  }

  /**
   * After the loop has run `|done|` times: of the chunks `lines`, the ones
   * still to be read are `pending`, and `done` holds what `all` prescribes
   * for the chunks read so far.
   */
  predicate Progress(lines: seq<string>, all: seq<Action>, pending: seq<string>, done: seq<Action>)
  {
    && |done| <= |lines| == |all|
    && pending == lines[|done|..]
    && done == all[..|done|]
  }

  /** Reading the next chunk and doing what `all` prescribes for it keeps `Progress`. */
  lemma ProgressStep(lines: seq<string>, all: seq<Action>, pending: seq<string>, done: seq<Action>,
                     line: string, next: seq<string>)
    requires Progress(lines, all, pending, done)
    requires pending == [line] + next
    ensures |done| < |lines| && lines[|done|] == line
    ensures Progress(lines, all, next, done + [all[|done|]])
  {
    var k := |done|;
    assert next == pending[1..];
    assert all[..k + 1] == all[..k] + [all[k]];
  }

  /**
   * `fgets(input, MAX_LINE, stdin)` on the stream `rest`: the next chunk, or
   * NULL at the end of the stream, and what is left of the stream.
   */
  method Fgets(rest: string) returns (chunk: Option<string>, left: string)
    ensures chunk == ReadLine(rest)
    ensures chunk.None? ==> Lines(rest) == []
    ensures chunk.Some? ==> left == rest[|chunk.value|..] && Lines(rest) == [chunk.value] + Lines(left)
  {
    chunk := ReadLine(rest);
    left := if chunk.Some? then rest[|chunk.value|..] else rest;
  }

  /**
   * One pass through the loop body, iteration `|done|` of a session over the
   * chunks `lines`: `fgets` reads the next chunk from `rest`; at the end of
   * the input there is no action. Otherwise the buffer receives the chunk,
   * loses its trailing newline, is tokenized into `args`, and the tokens are
   * dispatched.
   */
  method Iterate(rest: string, input: seq<char>, args: array<Option<string>>,
                 home: Option<string>, rand: nat, ghost rands: nat -> nat,
                 ghost lines: seq<string>, ghost done: seq<Action>)
    returns (left: string, buffer: seq<char>, action: Option<Action>)
    requires |input| == MaxLine && args.Length == ArgSlots
    requires Progress(lines, Actions(lines, home, rands), Lines(rest), done) && rand == rands(|done|)
    modifies args
    ensures action.None? ==> Lines(rest) == [] && |done| == |lines|
    ensures action.Some? ==> |left| < |rest| && |buffer| == MaxLine &&
                             Progress(lines, Actions(lines, home, rands), Lines(left), done + [action.value])
  {
    var chunk;
    chunk, left := Fgets(rest);
    buffer := input;
    if chunk.None? {
      return left, buffer, None;
    }
    var line := chunk.value;
    buffer := Store(input, line);
    buffer := StripNewline(buffer);
    StoredCommandText(input, line);
    var argCount := Tokenize(Str(buffer), args);
    var argv := Argv(args[..argCount]);
    assert argv == Tokens(CommandText(line));
    action := Some(Dispatch(argv, home, rand));
    ProgressStep(lines, Actions(lines, home, rands), Lines(rest), done, line, Lines(left));
  }

  /**
   * `main`: with a command-line argument it fails at once with status 1.
   * Otherwise it interprets the input's chunks in order, each as `Actions`
   * prescribes, up to and including the first `exit` (then "Good Bye!" and
   * status 0) or to the end of the input (status 1). `actions` lists what
   * each iteration did.
   */
  method Run(argc: nat, stdin: string, home: Option<string>, rands: nat -> nat)
    returns (status: int, farewell: bool, actions: seq<Action>)
    ensures argc > 1 ==> status == 1 && !farewell && actions == []
    ensures argc <= 1 ==> |actions| <= |Lines(stdin)| && actions == Actions(Lines(stdin), home, rands)[..|actions|]
    ensures ExitOnlyLast(actions)
    ensures argc <= 1 ==> farewell || |actions| == |Lines(stdin)|
    ensures farewell <==> status == 0
    ensures !farewell ==> status == 1
    ensures farewell <==> actions != [] && actions[|actions| - 1].Exit?
  {
    if argc > 1 {
      return 1, false, [];
    }
    ghost var lines := Lines(stdin);
    ghost var all := Actions(lines, home, rands);
    var input: seq<char> := seq(MaxLine, _ => NUL);
    var args := new Option<string>[ArgSlots];
    var shouldRun := true;
    var rest := stdin;
    actions := [];
    while shouldRun
      invariant |input| == MaxLine
      invariant Progress(lines, all, Lines(rest), actions)
      invariant ExitOnlyLast(actions)
      invariant shouldRun == (actions == [] || !actions[|actions| - 1].Exit?)
      decreases |rest|
    {
      var left, buffer, action := Iterate(rest, input, args, home, rands(|actions|), rands, lines, actions);
      if action.None? {
        return 1, false, actions;
      }
      ExitOnlyLastStep(actions, action.value);
      rest, input := left, buffer;
      shouldRun, actions := !action.value.Exit?, actions + [action.value];
    }
    status, farewell := 0, true;
  }
}
