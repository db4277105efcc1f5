/**
 * The `strtok(input, " ")` loop that splits the command text into the
 * NULL-terminated argument array `args[MAX_LINE / 2 + 1]`.
 * Only the space character separates tokens; a tab is an ordinary character.
 */
module Tokenizer {
  import opened Optional
  import opened LineInput

  /** The one delimiter passed to `strtok`. */
  const Space: char := ' '

  /** The number of slots of `args`: MAX_LINE / 2 + 1. */
  const ArgSlots: nat := MaxLine / 2 + 1

  /** A token: a non-empty string without a space. */
  predicate IsToken(t: string)
  {
    t != [] && Space !in t
  }

  /** The length of the leading run of non-space characters of `s`. */
  function RunLength(s: string): (n: nat)
    ensures n <= |s|
    ensures forall i :: 0 <= i < n ==> s[i] != Space
    ensures n < |s| ==> s[n] == Space
  {
    if s == [] || s[0] == Space then 0 else 1 + RunLength(s[1..])
  }

  /** Reference definition: the maximal non-empty runs of non-space characters of `s`, in order. */
  function Tokens(s: string): (ts: seq<string>)
    ensures forall i :: 0 <= i < |ts| ==> IsToken(ts[i])
    decreases |s|
  {
    if s == [] then []
    else if s[0] == Space then Tokens(s[1..])
    else
      var n := RunLength(s);
      [s[..n]] + Tokens(s[n..])
  }

  /** The first index at or after `i` that does not hold a space (strtok's `strspn` step). */
  function SkipSpaces(s: string, i: nat): (j: nat)
    requires i <= |s|
    ensures i <= j <= |s|
    ensures forall k :: i <= k < j ==> s[k] == Space
    ensures j < |s| ==> s[j] != Space
    decreases |s| - i
  {
    if i == |s| || s[i] != Space then i else SkipSpaces(s, i + 1)
  }

  /** What a `strtok` call still has to deliver: the token it returned and the ones after it. */
  function Pending(s: string, r: Option<(string, nat)>): seq<string>
    requires r.Some? ==> r.value.1 <= |s|
  {
    match r
    case None => []
    case Some((token, next)) => [token] + Tokens(s[next..])
  }

  /**
   * One `strtok(_, " ")` call resuming at `from`: skip the spaces, take the
   * characters up to the next space or the end, and resume after the space
   * (which strtok overwrites with NUL). None is the NULL result.
   */
  method StrTok(s: string, from: nat) returns (r: Option<(string, nat)>)
    requires from <= |s|
    ensures r.Some? ==> from < r.value.1 <= |s| && IsToken(r.value.0)
    ensures Pending(s, r) == Tokens(s[from..])
  {
    var start := SkipSpaces(s, from);
    SpacesBefore(s, from, start);
    if start == |s| {
      r := None;
      assert s[start..] == [];
    } else {
      var n := RunLength(s[start..]);
      var next: nat := if start + n < |s| then start + n + 1 else start + n;
      TokenAt(s, start);
      r := Some((s[start..start + n], next));
      assert Pending(s, r) == [s[start..start + n]] + Tokens(s[next..]);
    }
  }

  /** The spaces that strtok skips produce no token. */
  lemma SpacesBefore(s: string, from: nat, start: nat)
    requires from <= start <= |s|
    requires forall k :: from <= k < start ==> s[k] == Space
    ensures Tokens(s[from..]) == Tokens(s[start..])
  {
    SkipLeadingSpaces(s[from..], start - from);
    assert s[from..][start - from..] == s[start..];
  }

  /** A token starting at `start` is followed by the tokens after the space that ends it. */
  lemma TokenAt(s: string, start: nat)
    requires start < |s| && s[start] != Space
    ensures var n := RunLength(s[start..]);
            var next: nat := if start + n < |s| then start + n + 1 else start + n;
            Tokens(s[start..]) == [s[start..start + n]] + Tokens(s[next..])
  {
    var t := s[start..];
    var n := RunLength(t);
    FirstRun(t);
    assert t[..n] == s[start..start + n];
    if start + n < |s| {
      assert t[n + 1..] == s[start + n + 1..];
    } else {
      assert t[n..] == s[start + n..];
    }
  }

  /** The first token of `t`, when `t` starts with one, and the tokens after the space that ends it. */
  lemma FirstRun(t: string)
    requires t != [] && t[0] != Space
    ensures var n := RunLength(t);
            Tokens(t) == [t[..n]] + Tokens(if n < |t| then t[n + 1..] else t[n..])
  {
    var n := RunLength(t);
    if n < |t| {
      var gap := t[n..];
      assert gap[0] == Space;
      assert Tokens(gap) == Tokens(gap[1..]);
      assert gap[1..] == t[n + 1..];
    }
  }

  /** Leading spaces produce no token. */
  lemma {:induction false} SkipLeadingSpaces(s: string, k: nat)
    requires k <= |s|
    requires forall i :: 0 <= i < k ==> s[i] == Space
    ensures Tokens(s[k..]) == Tokens(s)
  {
    if k > 0 {
      SkipLeadingSpaces(s[1..], k - 1);
      assert s[1..][k - 1..] == s[k..];
    }
  }

  /** The argument vector that the NULL-terminated prefix of `args` stands for. */
  function Argv(slots: seq<Option<string>>): (argv: seq<string>)
    requires forall i :: 0 <= i < |slots| ==> slots[i].Some?
    ensures |argv| == |slots|
    ensures forall i :: 0 <= i < |slots| ==> slots[i] == Some(argv[i])
  {
    seq(|slots|, i requires 0 <= i < |slots| => slots[i].value)
  }

  /**
   * The tokenizer loop: `args[0..argCount)` receive the tokens of `line` in
   * order and `args[argCount]` the NULL sentinel, which always lies inside
   * the 41-slot array because `fgets` stores at most MAX_LINE - 1 characters.
   */
  method Tokenize(line: string, args: array<Option<string>>) returns (argCount: nat)
    requires |line| < MaxLine
    requires args.Length == ArgSlots
    modifies args
    ensures argCount < args.Length
    ensures argCount == |Tokens(line)|
    ensures forall i :: 0 <= i < argCount ==> args[i] == Some(Tokens(line)[i])
    ensures args[argCount] == None
    ensures forall i :: argCount < i < args.Length ==> args[i] == old(args[i])
  {
    ghost var tokens := Tokens(line);
    ArgsFit(line);
    argCount := 0;
    var token := StrTok(line, 0);
    assert line[0..] == line;
    while token.Some?
      invariant token.Some? ==> token.value.1 <= |line|
      invariant argCount <= |tokens|
      invariant Pending(line, token) == tokens[argCount..]
      invariant forall i :: 0 <= i < argCount ==> args[i] == Some(tokens[i])
      invariant forall i :: argCount <= i < args.Length ==> args[i] == old(args[i])
      decreases if token.Some? then |line| + 1 - token.value.1 else 0
    {
      var next := token.value.1;
      NextPending(tokens, argCount, token.value.0, Tokens(line[next..]));
      args[argCount] := Some(token.value.0);
      argCount := argCount + 1;
      token := StrTok(line, next);
    }
    args[argCount] := None;
  }

  /** The tokens of a line `fgets` stored, and the NULL after them, fit the argument array. */
  lemma ArgsFit(line: string)
    requires |line| < MaxLine
    ensures |Tokens(line)| < ArgSlots
  {
    TokenCountBound(line);
  }

  /** Taking one token off what is pending. */
  lemma NextPending(tokens: seq<string>, k: nat, token: string, after: seq<string>)
    requires k <= |tokens| && tokens[k..] == [token] + after
    ensures k < |tokens| && tokens[k] == token && tokens[k + 1..] == after
  {
    assert tokens[k..][0] == token;
    assert tokens[k..][1..] == after;
  }

  /** A line of `n` characters has at most (n + 1) / 2 tokens: each one but the last needs a space after it. */
  lemma {:induction false} TokenCountBound(s: string)
    ensures |Tokens(s)| <= (|s| + 1) / 2
    decreases |s|
  {
    if s == [] {
    } else if s[0] == Space {
      TokenCountBound(s[1..]);
    } else {
      var n := RunLength(s);
      var rest := s[n..];
      if rest != [] {
        assert rest[0] == Space;
        assert Tokens(rest) == Tokens(rest[1..]);
        TokenCountBound(rest[1..]);
      }
    }
  }

  /** A run of `k` spaces. */
  function Spaces(k: nat): (p: string)
    ensures |p| == k && forall i :: 0 <= i < k ==> p[i] == Space
  {
    seq(k, _ => Space)
  }

  /** Tokens each followed by its gap of spaces. */
  function Body(ts: seq<string>, gaps: seq<nat>): string
    requires |ts| == |gaps|
  {
    if ts == [] then [] else ts[0] + Spaces(gaps[0]) + Body(ts[1..], gaps[1..])
  }

  /** `ts` are tokens and every token but the last is followed by at least one space. */
  predicate Separated(ts: seq<string>, gaps: seq<nat>)
  {
    && |ts| == |gaps|
    && (forall i :: 0 <= i < |ts| ==> IsToken(ts[i]))
    && (forall i :: 0 <= i < |ts| - 1 ==> gaps[i] > 0)
  }

  /**
   * Every line is leading spaces followed by its tokens, each with the
   * spaces after it, every token but the last followed by at least one space.
   */
  lemma {:induction false} Decompose(s: string) returns (lead: nat, gaps: seq<nat>)
    ensures Separated(Tokens(s), gaps)
    ensures s == Spaces(lead) + Body(Tokens(s), gaps)
    decreases |s|
  {
    if s == [] {
      lead, gaps := 0, [];
    } else if s[0] == Space {
      lead, gaps := Decompose(s[1..]);
      assert s == Spaces(lead + 1) + Body(Tokens(s), gaps) by {
        assert Spaces(lead + 1) == [Space] + Spaces(lead);
      }
      lead := lead + 1;
    } else {
      var n := RunLength(s);
      var rest := s[n..];
      var l, g := Decompose(rest);
      assert Tokens(s) == [s[..n]] + Tokens(rest);
      if Tokens(rest) != [] {
        assert rest[0] == Space;
        BodyStart(Tokens(rest), g);
      }
      PrependToken(s[..n], Tokens(rest), l, g);
      assert s == s[..n] + rest;
      lead, gaps := 0, [l] + g;
    }
  }

  /** A token in front of a laid-out line that starts with a space, or is empty, gives a laid-out line. */
  lemma PrependToken(t: string, ts: seq<string>, l: nat, g: seq<nat>)
    requires IsToken(t) && Separated(ts, g)
    requires ts != [] ==> l > 0
    ensures Separated([t] + ts, [l] + g)
    ensures t + (Spaces(l) + Body(ts, g)) == Spaces(0) + Body([t] + ts, [l] + g)
  {
    var ts', g' := [t] + ts, [l] + g;
    assert ts'[1..] == ts && g'[1..] == g;
    assert Spaces(0) == [];
  }

  /**
   * Conversely, a line laid out as leading spaces, tokens and separating
   * spaces tokenizes to exactly those tokens.
   */
  lemma {:induction false} TokensOfLayout(lead: nat, ts: seq<string>, gaps: seq<nat>)
    requires Separated(ts, gaps)
    ensures Tokens(Spaces(lead) + Body(ts, gaps)) == ts
  {
    SkipLeadingSpaces(Spaces(lead) + Body(ts, gaps), lead);
    assert (Spaces(lead) + Body(ts, gaps))[lead..] == Body(ts, gaps);
    TokensOfBody(ts, gaps);
  }

  lemma {:induction false} TokensOfBody(ts: seq<string>, gaps: seq<nat>)
    requires Separated(ts, gaps)
    ensures Tokens(Body(ts, gaps)) == ts
    decreases |ts|
  {
    if ts != [] {
      assert Separated(ts[1..], gaps[1..]);
      FirstToken(ts, gaps);
      TokensOfBody(ts[1..], gaps[1..]);
    }
  }

  /** The first token of a laid-out body, and the body that follows it and its gap. */
  lemma FirstToken(ts: seq<string>, gaps: seq<nat>)
    requires Separated(ts, gaps) && ts != []
    ensures Tokens(Body(ts, gaps)) == [ts[0]] + Tokens(Body(ts[1..], gaps[1..]))
  {
    var t := ts[0];
    var rest := Body(ts[1..], gaps[1..]);
    var after := Spaces(gaps[0]) + rest;
    var s := Body(ts, gaps);
    assert s == t + after;
    assert t[0] in t;
    if gaps[0] == 0 {
      assert after == [];
    }
    RunLengthOfToken(t, after);
    assert s[..|t|] == t && s[|t|..] == after;
    SkipLeadingSpaces(after, gaps[0]);
    assert after[gaps[0]..] == rest;
  }

  lemma {:induction false} RunLengthOfToken(t: string, after: string)
    requires Space !in t
    requires after == [] || after[0] == Space
    ensures RunLength(t + after) == |t|
  {
    var s := t + after;
    assert forall i :: 0 <= i < |t| ==> s[i] == t[i];
    RunLengthUnique(s, |t|);
  }

  /** The three facts in `RunLength`'s contract determine it. */
  lemma RunLengthUnique(s: string, k: nat)
    requires k <= |s|
    requires forall i :: 0 <= i < k ==> s[i] != Space
    requires k < |s| ==> s[k] == Space
    ensures RunLength(s) == k
  {
  }

  /** A laid-out body that holds a token starts with that token's first character. */
  lemma BodyStart(ts: seq<string>, gaps: seq<nat>)
    requires Separated(ts, gaps) && ts != []
    ensures Body(ts, gaps) != [] && Body(ts, gaps)[0] == ts[0][0] != Space
  {
    assert ts[0][0] in ts[0];
  }

  /** `strtok` with the single delimiter " " leaves tabs inside tokens. */
  lemma TabIsNotADelimiter()
    ensures Tokens("ls\t-l  foo") == ["ls\t-l", "foo"]
  {
    TokensOfLayout(0, ["ls\t-l", "foo"], [2, 0]);
    assert Spaces(0) + Body(["ls\t-l", "foo"], [2, 0]) == "ls\t-l  foo";
  }
}
