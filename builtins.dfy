/**
 * The dispatch chain of one loop iteration: the argument vector is matched,
 * first match wins, against exit, cd, kyorochan, masuo, yonezu and help, and
 * anything else is launched as an external program. The operating-system
 * effects are left abstract as an `Action`.
 */
module Builtins {
  import opened Optional
  import opened LineInput

  /** The two ASCII-art pictures. */
  datatype Art = Kyorochan | Masuo

  /** What one iteration does after tokenizing. */
  datatype Action =
    | Exit                                 // should_run = 0: the loop ends
    | ChangeDir(dir: string)               // chdir(dir) in the shell process itself
    | NoHome                               // bare cd without HOME: error, no directory change
    | Draw(art: Art)                       // print one picture
    | OpenVideo(index: nat)                // system(OpenCommand(index)) opens urls[index]
    | Help                                 // print_help()
    | Launch(argv: seq<string>)            // fork, execvp(argv[0], argv) in the child, wait

  /** The videos `yonezu` chooses from. */
  const Urls: seq<string> := [
    "https://www.youtube.com/watch?v=-wb2PAx6aEs",
    "https://www.youtube.com/watch?v=BYGo5t6rdA8",
    "https://www.youtube.com/watch?v=Zhx1n6uvgUE",
    "https://www.youtube.com/watch?v=7WZ1Kt3zraY",
    "https://www.youtube.com/watch?v=UFQEttrn6CQ",
    "https://www.youtube.com/watch?v=XeFQJ6-XoD0",
    "https://www.youtube.com/watch?v=ptnYBctoexk",
    "https://www.youtube.com/watch?v=1s84rIhPuhk",
    "https://www.youtube.com/watch?v=SX_ViT4Ra7k",
    "https://www.youtube.com/watch?v=zkNzxsaCunU",
    "https://www.youtube.com/watch?v=Dx_fKPBPYUI",
    "https://www.youtube.com/watch?v=lzAyrgSqeeE",
    "https://www.youtube.com/watch?v=2PqxOytUjz0"
  ]

  /** The command prefix written by `snprintf(command, sizeof(command), "open %s", url)`. */
  const OpenPrefix: string := "open "

  /**
   * `snprintf(buf, size, "%s", text)` for `size > 0`: the string written is
   * `text` cut to at most `size - 1` characters.
   */
  function Snprintf(text: string, size: nat): (out: string)
    requires size > 0
    ensures out <= text
    ensures |out| == if |text| < size then |text| else size - 1
    ensures out == text <==> |text| < size
  {
    if |text| < size then text else text[..size - 1]
  }

  /** `rand() % num_urls` for a non-negative `rand()` result. */
  function VideoIndex(rand: nat): (index: nat)
    ensures index < |Urls| == 13
    ensures (rand - index) % 13 == 0
  {
    rand % |Urls|
  }

  /** Every video URL has 43 characters. */
  lemma UrlLengths()
    ensures forall i :: 0 <= i < |Urls| ==> |Urls[i]| == 43
  {
  }

  /** The `open` command for each video fits the 80-byte `command` buffer, so it is never cut. */
  lemma {:induction false} OpenCommandFits(index: nat)
    requires index < |Urls|
    ensures Snprintf(OpenPrefix + Urls[index], MaxLine) == OpenPrefix + Urls[index]
    ensures |OpenPrefix + Urls[index]| == 48
  {
    UrlLengths();
  }

  /** The command `yonezu` passes to `system` for the video at `index`: "open " and the URL, uncut. */
  function OpenCommand(index: nat): (command: string)
    requires index < |Urls|
    ensures command == OpenPrefix + Urls[index]
    ensures |command| == 48 < MaxLine
  {
    OpenCommandFits(index);
    Snprintf(OpenPrefix + Urls[index], MaxLine)
  }

  /** `cd`'s target: HOME without an argument, otherwise the first argument; extra arguments are ignored. */
  function CdTarget(argv: seq<string>, home: Option<string>): (dir: Option<string>)
    requires |argv| > 0
    ensures |argv| >= 2 ==> dir == Some(argv[1])
    ensures |argv| < 2 ==> dir == home
  {
    if |argv| < 2 then home else Some(argv[1])
  }

  /**
   * The builtin chain. `exit` and `cd` need only a first token; the other
   * four builtins need exactly one token; everything else, the empty vector
   * included, is launched. `home` is getenv("HOME") and `rand` the value
   * rand() returns if it is called.
   */
  function Dispatch(argv: seq<string>, home: Option<string>, rand: nat): (a: Action)
    ensures a == Exit <==> |argv| > 0 && argv[0] == "exit"
    ensures a.ChangeDir? || a == NoHome <==> |argv| > 0 && argv[0] == "cd"
    ensures a == NoHome <==> argv == ["cd"] && home == None
    ensures a.ChangeDir? ==> Some(a.dir) == CdTarget(argv, home)
    ensures a == Draw(Kyorochan) <==> argv == ["kyorochan"]
    ensures a == Draw(Masuo) <==> argv == ["masuo"]
    ensures a.OpenVideo? <==> argv == ["yonezu"]
    ensures a.OpenVideo? ==> a.index == VideoIndex(rand) < |Urls|
    ensures a == Help <==> argv == ["help"]
    ensures a.Launch? ==> a.argv == argv
  {
    var argCount := |argv|;
    if argCount > 0 && argv[0] == "exit" then
      Exit
    else if argCount > 0 && argv[0] == "cd" then
      match CdTarget(argv, home)
      case None => NoHome
      case Some(dir) => ChangeDir(dir)
    else if argCount == 1 && argv[0] == "kyorochan" then
      Draw(Kyorochan)
    else if argCount == 1 && argv[0] == "masuo" then
      Draw(Masuo)
    else if argCount == 1 && argv[0] == "yonezu" then
      OpenVideo(VideoIndex(rand))
    else if argCount == 1 && argv[0] == "help" then
      Help
    else
      Launch(argv)
  }

  /** `exit` is chosen whatever arguments follow it. */
  lemma ExitIgnoresArguments(extra: seq<string>, home: Option<string>, rand: nat)
    ensures Dispatch(["exit"] + extra, home, rand) == Exit
  {
  }

  /** `cd dir` changes to `dir` whatever follows it and whatever HOME is. */
  lemma CdIgnoresLaterArguments(dir: string, extra: seq<string>, home: Option<string>, rand: nat)
    ensures Dispatch(["cd", dir] + extra, home, rand) == ChangeDir(dir)
  {
  }

  /** A one-argument builtin called with an argument is launched as an external program. */
  lemma ArgumentsDefeatOneTokenBuiltins(name: string, extra: seq<string>, home: Option<string>, rand: nat)
    requires name in {"kyorochan", "masuo", "yonezu", "help"}
    requires extra != []
    ensures Dispatch([name] + extra, home, rand) == Launch([name] + extra)
  {
  }

  /** A blank or all-space line matches no builtin: the fork branch runs with args[0] == NULL. */
  lemma EmptyVectorIsLaunched(home: Option<string>, rand: nat)
    ensures Dispatch([], home, rand) == Launch([])
  {
  }
}
