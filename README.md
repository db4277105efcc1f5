# simplesh — a Dafny model of the shell's read–tokenize–dispatch loop

`simplesh` is a small interactive shell written in C. This project models `main`:

- A command-line argument makes it fail at once with status 1.
- Otherwise it repeats the same steps:
  - it reads a chunk of standard input with `fgets(input, MAX_LINE, stdin)` (`MAX_LINE` is 80);
  - it overwrites a trailing newline with NUL;
  - it splits the text with `strtok(_, " ")` into the NULL-terminated array `args[MAX_LINE / 2 + 1]`;
  - it dispatches the argument vector. The builtins are `exit`, `cd`, `kyorochan`, `masuo`, `yonezu` and `help`. Anything else goes to the fork/exec branch.
- The loop runs while `should_run` is set. `exit` clears it, and the shell then prints "Good Bye!" and returns 0. When `fgets` reports the end of the input, the shell returns 1.

The modules follow the steps of one iteration:

| module | file | what it holds |
|---|---|---|
| `Optional` | `optional.dfy` | the `Option` type; `None` plays the role of C's NULL |
| `CString` | `cstring.dfy` | NUL-terminated buffers: `strlen`, and the string a buffer holds |
| `LineInput` | `line_input.dfy` | how `fgets` cuts the input into chunks; the 80-byte buffer after a read; the newline strip |
| `Tokenizer` | `tokenizer.dfy` | the `strtok` loop as an imperative method over the `args` array, proved against a reference definition of the tokens |
| `Builtins` | `builtins.dfy` | the dispatch chain as a pure function to an `Action`; the `cd` target; the `yonezu` index and command |
| `Shell` | `shell.dfy` | `main`'s loop as an imperative method over a stream of input, proved against the per-chunk actions |

Effects on the environment stay abstract:

- Standard input is a string `stdin`.
- `getenv("HOME")` is a parameter `home: Option<string>`.
- The value `rand()` would return in iteration `k` is `rands(k)`, an arbitrary natural number.
- What the shell does with the operating system in an iteration is an `Action`. The actions are: `Exit`, `ChangeDir(dir)`, `NoHome`, `Draw(art)`, `OpenVideo(index)`, `Help` and `Launch(argv)`.

### Where the code behaves differently than one might expect

In three places the code does not do what a reader of a shell might expect, and the model follows the code:

- **Blank lines.** One might expect empty or all-space input to be skipped silently. In the code, an empty token vector matches no builtin, because each builtin test needs `arg_count > 0` or `arg_count == 1`. So the code reaches `fork` with `args[0] == NULL` (`Builtins.EmptyVectorIsLaunched`, `Shell.BlankLineIsLaunched`).
- **Delimiters.** One might expect tokens to be separated by runs of any whitespace. `strtok` is given only `" "`, so a tab stays inside a token (`Tokenizer.TabIsNotADelimiter`).
- **Long lines.** One might expect overlong input to be truncated. Instead, `fgets` returns the first 79 characters of a longer line, and the following calls return the rest, at most 79 characters at a time. Each chunk is then tokenized and dispatched as a command of its own (`LineInput.LongLineIsSplit`, `Shell.Run`).

## Model

| member | source | states |
|---|---|---|
| CString.Strlen | simplesh.c:80 | `strlen` is the index of the first NUL, or the buffer's length when it has none. No NUL comes before it. |
| CString.StrOfTerminated | simplesh.c:73 | A NUL-free string written in front of a NUL is exactly the string the buffer then holds, whatever follows. |
| LineInput.ChunkLength | simplesh.c:73 | `fgets` takes at most `room` characters. It takes at least one if the input is not empty. Only the last character taken can be a newline. If it stops early, it stopped after a newline. |
| LineInput.ReadLine | simplesh.c:73-77 | `fgets` returns NULL exactly at the end of the input. Otherwise it returns a non-empty prefix of the input with fewer than MAX_LINE characters and a newline only at the end. A chunk shorter than 79 characters that stops before the end of the input ends in a newline. |
| LineInput.LongLineIsSplit | simplesh.c:73 | A line with no newline in its first 78 characters comes back as exactly its first 79 characters. The chunks after it are the chunks of the rest of the input. |
| LineInput.ChunkFillsRoom | simplesh.c:73 | With no newline before its last place, `fgets` fills all the room it is given. |
| LineInput.LinesCoverStream | simplesh.c:73 | The chunks that successive `fgets` calls return, joined, give back the whole input: nothing is lost or duplicated. |
| LineInput.LineLengths | simplesh.c:73 | Every chunk is non-empty and shorter than the 80-byte buffer. |
| LineInput.Store | simplesh.c:73 | After `fgets` the buffer holds the chunk and a NUL, followed by its earlier contents. The string it holds is the chunk. |
| LineInput.Chomp | simplesh.c:80-83 | Removes one trailing newline, and only when there is one. |
| LineInput.StripNewline | simplesh.c:80-83 | The buffer's string loses exactly its final newline, if it has one. Every byte other than the one at `strlen - 1` is unchanged. |
| LineInput.StoredCommandText | simplesh.c:73-83 | Whatever the buffer held before, reading a chunk and stripping it leaves the chunk's text without its newline, never longer than the chunk. |
| Tokenizer.RunLength | simplesh.c:87-91 | The length of the leading run of non-space characters: no space inside it, and a space or the end of the string after it. |
| Tokenizer.Tokens | simplesh.c:86-92 | Every token is non-empty and holds no space. |
| Tokenizer.SkipSpaces | simplesh.c:87 | Skips exactly the spaces at the resume point and stops at a non-space character or at the end. |
| Tokenizer.StrTok | simplesh.c:87-91 | One `strtok` call returns a token and a resume point after its start, or NULL. What it and the later calls deliver are exactly the reference tokens of the rest of the string. |
| Tokenizer.SkipLeadingSpaces | simplesh.c:87-91 | Leading spaces produce no token. |
| Tokenizer.Argv | simplesh.c:89-93 | The slots before the NULL sentinel stand for an argument vector of the same length, element by element. |
| Tokenizer.Tokenize | simplesh.c:86-93 | `args[0..arg_count)` hold the tokens of the line in order, with `arg_count` equal to their number. `args[arg_count]` is NULL and lies inside the 41-slot array. No later slot changes. |
| Tokenizer.ArgsFit | simplesh.c:42-93 | A line `fgets` stored has fewer tokens than the `MAX_LINE / 2 + 1` slots of `args`, so the sentinel fits. |
| Tokenizer.TokenCountBound | simplesh.c:86-93 | A string of n characters has at most (n + 1) / 2 tokens. |
| Tokenizer.Decompose | simplesh.c:87-92 | Every line is leading spaces followed by its tokens. Each token is followed by its spaces, and every token but the last by at least one space. So the tokens are the maximal runs of non-space characters. |
| Tokenizer.TokensOfLayout | simplesh.c:87-92 | Conversely, such a layout tokenizes to exactly its tokens. |
| Tokenizer.TabIsNotADelimiter | simplesh.c:87 | A tab stays inside its token: `"ls\t-l  foo"` gives `["ls\t-l", "foo"]`. |
| Builtins.Snprintf | simplesh.c:162-163 | `snprintf` into a buffer of `size` bytes writes the prefix of the text that has `min(|text|, size - 1)` characters. So it writes the whole text exactly when the text is shorter than `size`. |
| Builtins.VideoIndex | simplesh.c:160 | `rand() % num_urls` is an index below 13 that is congruent to `rand()` modulo 13. |
| Builtins.UrlLengths | simplesh.c:47-61 | Each of the 13 video URLs has 43 characters. |
| Builtins.OpenCommandFits | simplesh.c:160-163 | For every index `rand() % 13` can give, "open " plus the URL has 48 characters and is not cut by the 80-byte `command` buffer. |
| Builtins.OpenCommand | simplesh.c:162-165 | The command passed to `system` is "open " followed by the whole URL, 48 characters long. |
| Builtins.CdTarget | simplesh.c:104 | `cd` with no argument targets HOME (possibly absent). Otherwise it targets the first argument. |
| Builtins.Dispatch | simplesh.c:96-181 | `Exit` is chosen iff the first token is `exit`. `cd` runs iff the first token is `cd`, and fails for lack of HOME iff the vector is just `cd` and HOME is unset. Each picture, video and help is chosen iff the vector is exactly that one word, and the video index is `rand() % 13`. Anything else launches the vector unchanged. |
| Builtins.ExitIgnoresArguments | simplesh.c:96-99 | `exit` ends the loop whatever arguments follow it. |
| Builtins.CdIgnoresLaterArguments | simplesh.c:102-116 | `cd dir ...` changes to `dir` whatever follows and whatever HOME is. |
| Builtins.ArgumentsDefeatOneTokenBuiltins | simplesh.c:119-181 | `kyorochan`, `masuo`, `yonezu` or `help` followed by any argument is launched as an external program. |
| Builtins.EmptyVectorIsLaunched | simplesh.c:93-181 | An empty argument vector matches no builtin and reaches the fork branch. |
| Shell.BlankLineIsLaunched | simplesh.c:80-181 | A line of only spaces and a newline is launched with an empty argument vector; it is not skipped. |
| Shell.ExitOnlyLastStep | simplesh.c:68-99 | Appending an action after one that is not `exit` keeps `exit` at most as the last action. |
| Shell.ProgressStep | simplesh.c:68-93 | Reading the next chunk and doing what it prescribes advances the loop by exactly that chunk. |
| Shell.Fgets | simplesh.c:73-77 | The stateful read over the stream: returns what `ReadLine` gives. At NULL no chunk is left. Otherwise the remaining input is what follows the chunk, and it holds exactly the remaining chunks. |
| Shell.Iterate | simplesh.c:69-178 | One pass of the loop body. At the end of the input there is no action. Otherwise it consumes exactly the next chunk and performs the action that chunk prescribes. |
| Shell.Run | simplesh.c:34-202 | With an argument: status 1 and nothing done. Otherwise the actions are those the input's chunks prescribe, in order. The run stops at the first `exit` or at the end of the input. "Good Bye!" and status 0 happen exactly when the last action is `exit`, and any other ending has status 1. `exit` can only be the last action. |

## Left out

- `fork`, `execvp` and `wait` (simplesh.c:181-196) are foreign calls. They are the `Launch(argv)` action. The model does not capture that a failing `fork` makes the shell return 1, or that a failing `execvp` makes the child print an error and return 1.
- What `execvp` does with an empty vector (`args[0] == NULL`) is outside the model. The model only shows that the vector reaches it.
- `chdir` and `system` are foreign calls, so their outcomes and error messages are not modelled. They are the `ChangeDir` and `OpenVideo` actions.
- The prompt, `fflush`, the usage and error messages, the ASCII art, the help text and "Good Bye!" itself are output only. `Run`'s `farewell` flag says whether the farewell line is printed.
- A read error in `fgets` is not told apart from the end of the input. Both return NULL, and the model has only the end of the input.
- `srand(time(NULL))` and the distribution of `rand()` are out of scope. Each iteration's `rand()` value is an arbitrary `rands(k)`. The model assumes the value is non-negative, which `rand()` guarantees.
- `strtok` writes NUL into `input` and keeps a static position. The model returns each token as a copy and passes the resume index explicitly. So `args` holds strings, not pointers into `input`, and the bytes `strtok` overwrites are not modelled.
- Characters are `char`, and `MAX_LINE` counts characters. The C code counts bytes, so a multi-byte UTF-8 character counts as several there.
- The bytes of `input` that `fgets` leaves after the NUL are kept in the model, but they never affect a result.
- LineInput.Lines: has no contract of its own. It is the reference definition of the chunks that repeated `fgets` calls return, and `LineInput.LinesCoverStream`, `LineInput.LineLengths` and `LineInput.LongLineIsSplit` state its properties.
- LineInput.CommandText: has no contract of its own. It is the reference definition of the text the tokenizer sees for a chunk: the chunk's string without its trailing newline. `LineInput.StoredCommandText` proves it is what the buffer holds after the strip.
- Shell.Interpret: has no contract of its own. It is the reference definition of one iteration's action for a chunk: `Builtins.Dispatch` of `Tokenizer.Tokens` of `LineInput.CommandText`. `Shell.Iterate` is proved to perform it, and `Shell.BlankLineIsLaunched` states its blank-line case.
- Shell.Actions: its contract states only the length. It is the reference definition that `Shell.Run` and `Shell.Iterate` are proved against: chunk k is interpreted with the k-th `rand()` value.
