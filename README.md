# A Dafny model of the terraform agent's tool loop and workspace server

The system is a chat agent that drives terraform through a small tool
server. This project models two parts of it and proves their properties:

* **The agent's inner loop** (`agent/main.py`). It finds a tool call in
  the model's reply: first a fenced `json` block, otherwise a raw
  `{ ... "tool": ... }` span. It decodes the call and makes it. It gathers
  the text items of the result, shows at most 200 characters of them, and
  feeds the whole output back to the model. It repeats this until a reply
  holds no tool call. The outer loop reads user lines and stops at
  `quit` or `exit`.
* **The tool server** (`mcp-server/server.py`). It builds the terraform
  command line with each tool's fixed flags and formats the run report.
  It also provides `write_file`, `read_file` and `list_files` over a
  workspace directory. A guard joins the file name to the workspace path,
  normalises the result, and accepts it only if the workspace path is a
  string prefix of it. The files are keyed by that normalised path; a
  joined path ending in `/`, `/.` or `/..` can only name a directory, as
  the kernel's lookup demands.

Modules:

* `Base`: option and result values.
* `Extraction`: the two regular-expression searches, written as search
  functions, and the decoding of a request.
* `Dispatch`: the inner loop and the session.
  * As pure functions: `Step`, `Turn` and `Session`.
  * As the class `Agent`, whose loop methods are proved equal to those
    functions.
* `Terraform`: the command line, the report, and the four tools.
* `Paths`: `os.path.join` and `os.path.abspath` on POSIX paths, and the
  prefix guard.
* `WorkspaceFiles`: the three file tools.
  * As functions on a file-system value.
  * As methods of the class `Workspace`, which holds that file system.

Outside effects are parameters:

* The language model's reply is a function of all messages sent so far.
* `session.call_tool` is a function of the earlier calls and the request.
* `json.loads` is a partial function from text to a JSON value.
* Python's `str()` of a tool name that is a number, a list or a dict is a function.
* The process runner maps an argv to a completed run or a launch error.
* The file system's error texts are a function of the failure and the path.

## Model

| member | source | states |
|---|---|---|
| Extraction.SkipSpace | agent/main.py:83 | the `\s*` run: a maximal run of Python whitespace |
| Extraction.OpenBody | agent/main.py:83 | where the body starts after a fence: exactly the positions where the fence and its whitespace end and a `{` follows |
| Extraction.CloseEnd | agent/main.py:83 | the closing `\s*` and backticks after a body: found exactly when they are there |
| Extraction.ShortestBody | agent/main.py:83 | the lazy `.*?`: the first position at or after the given one where a body from the start closes, and no closing body before it |
| Extraction.IsSpace | agent/main.py:83 | the `\s` class: the characters `str.isspace` accepts (a definition; `SkipSpace` states its use) |
| Extraction.FencedSearch | agent/main.py:83 | the fenced `re.search`: the search from the start of the text (a definition; `FencedFrom`, `FenceTakesPrecedence` and `NoCaptureIff` state its properties) |
| Extraction.FencedFrom | agent/main.py:83 | the fenced search: None exactly when no fenced match starts at or after the given position; otherwise the leftmost start with the shortest body ending in `}` |
| Extraction.RawSearch | agent/main.py:86 | the raw search: a match from the leftmost `{` that starts any match, with the latest `"tool":` and the latest closing `}` (the greedy `.*`); None exactly when no raw match exists |
| Extraction.Extract | agent/main.py:83-88 | the capture: the fenced search's, and the raw search's only when the fenced search finds nothing (a definition; `FenceTakesPrecedence` and `NoCaptureIff` state its properties) |
| Extraction.FenceTakesPrecedence | agent/main.py:83-86 | when a fenced match exists, its capture is the result and the raw search is not consulted |
| Extraction.FencedCaptureShape | agent/main.py:83 | the fenced capture starts with `{`, ends with `}`, and is followed by whitespace and backticks; no shorter body from the same start closes |
| Extraction.RawCaptureShape | agent/main.py:86 | the raw capture starts with `{`, ends with `}` and contains `"tool":` |
| Extraction.NoToolKeyNoCall | agent/main.py:83-88 | a text with no fenced match and no `"tool":` yields no capture |
| Extraction.NoCaptureIff | agent/main.py:83-88 | there is no capture exactly when neither search finds a match |
| Extraction.ParseRequest | agent/main.py:90-92 | a request is produced exactly when decoding succeeds with a dict; a decode error passes through; any other value gives the `AttributeError` text for `.get` |
| Extraction.Get | agent/main.py:91-92 | `dict.get(key, default)`: the value at the key, else the default (a definition; `RequestFields` states its use) |
| Extraction.TypeName | agent/main.py:91 | the Python type name in the AttributeError text for `.get` on a non-dict (a definition; `ParseRequest` states its use) |
| Extraction.RequestFields | agent/main.py:91-92 | a missing `"tool"` gives None; missing `"arguments"` gives `{}`; a present key's value is used unchanged |
| Dispatch.Piece | agent/main.py:103-104 | what one content item adds: its text when its type is `text`, otherwise nothing (a definition; `TextOfCons` states it) |
| Dispatch.TextOf | agent/main.py:100-104 | the output of a result: its text items' texts in order (a definition; `TextOfAppend`, `TextOfCons` and `FormatOutput` state its properties) |
| Dispatch.TextOfAppend | agent/main.py:100-104 | the gathered output of two runs of items is the concatenation of their outputs |
| Dispatch.TextOfCons | agent/main.py:102-104 | a text item contributes its text before the rest; any other item contributes nothing |
| Dispatch.NonTextContributesNothing | agent/main.py:103 | a result with no text items gives `""`, and so does empty content |
| Dispatch.NonTextItemIgnored | agent/main.py:103 | inserting a non-text item anywhere leaves the output unchanged |
| Dispatch.FormatOutput | agent/main.py:100-104 | the accumulating loop returns the in-order concatenation of the text items |
| Dispatch.Shown | agent/main.py:106 | the displayed part is the prefix of length min(200, length) |
| Dispatch.DisplayLine | agent/main.py:106 | the printed line: `[Tool Output]: `, the shown prefix, then `...` (a definition; `ToolOutputFedBack` states it) |
| Dispatch.NameText | agent/main.py:109 | `str()` of the tool name: a string tool name appears as itself |
| Dispatch.Feedback | agent/main.py:109 | the message is `Tool '`, then the name, then `' output:` and a newline, then the whole output |
| Dispatch.ErrorMessage | agent/main.py:112-113 | the printed and fed-back error: `Error executing tool: ` then the exception text (a definition; the `...FedBack` lemmas state its use) |
| Dispatch.AgentLine | agent/main.py:116 | the final answer line: a newline, `Agent: ` and the reply (a definition; `NoCaptureEndsTurn` states its use) |
| Dispatch.Step | agent/main.py:83-117 | one round: there is no next reply exactly when there is no capture, and then only `Agent: <text>` is shown; otherwise exactly one message is sent and the next reply is the model's answer to it. At most one call is made, history is only appended to, and one line is shown |
| Dispatch.NoCaptureEndsTurn | agent/main.py:114-117 | a reply holding no tool call ends the turn: no call, no message, one `Agent:` line |
| Dispatch.ParseErrorFedBack | agent/main.py:89-113 | a decoding failure sends exactly one `Error executing tool:` message, makes no call, and the loop continues |
| Dispatch.CallErrorFedBack | agent/main.py:97-113 | a failing call is made once; its error goes back as one `Error executing tool:` message, and the loop continues |
| Dispatch.ToolOutputFedBack | agent/main.py:97-109 | a successful call: the screen shows the 200-character prefix, the model gets the feedback message with the full output, and the loop continues; a string tool name appears in the message as itself |
| Dispatch.MissingArgumentsAreEmpty | agent/main.py:92-97 | a call whose object lacks `"arguments"` is made with an empty map |
| Dispatch.Turn | agent/main.py:77-117 | a turn only appends to the messages, calls and screen; calls number at most the messages sent; one line is shown per round plus one for the answer; running out of fuel means fuel-many messages were sent; a turn ends with an answer only on a reply holding no tool call, and that reply is the last line shown |
| Dispatch.TurnAdvance | agent/main.py:77-117 | with rounds left, a turn is its first round followed by the turn from the next reply, or ends with that round's answer |
| Dispatch.Lower | agent/main.py:68 | lowering keeps the length and lowers each character (A to Z; every other character is kept) |
| Dispatch.IsQuit | agent/main.py:68 | the quit test: the lowered input is `quit` or `exit` (a definition; `QuitWords` states its properties) |
| Dispatch.QuitWords | agent/main.py:68 | the quit test accepts `quit` and `exit` in any letter case and nothing longer or shorter; it is unchanged by lowering the input first |
| Dispatch.Session | agent/main.py:66-73 | the session only appends to the messages, calls and screen; a first input that is not a quit word is the next message sent |
| Dispatch.InputTurn | agent/main.py:73-117 | one input: it is the next message sent, and the turn on the reply only appends to the history after it |
| Dispatch.SessionUnfolds | agent/main.py:66-117 | after a turn that ends with an answer the session goes on with the next input from that turn's history, so every input read is sent in its turn |
| Dispatch.SessionStopsAtQuit | agent/main.py:66-69 | input after a quit word has no effect on the session |
| Dispatch.StalledTurnEndsSession | agent/main.py:66-77 | after a turn whose inner loop does not end, no later input is read; with no fuel, only the first input reaches the model |
| Dispatch.Agent.constructor | agent/main.py:62-66 | a fresh agent has empty history |
| Dispatch.Agent.Send | agent/main.py:109-113 | sending appends the message to the history and returns the model's reply to the whole history |
| Dispatch.Agent.CallTool | agent/main.py:97 | a call is recorded and answered by the tool server as a function of the earlier calls |
| Dispatch.Agent.Show | agent/main.py:106-116 | a line is appended to the screen |
| Dispatch.Agent.RunStep | agent/main.py:78-117 | one pass of the loop body leaves the agent in the state `Step` computes and returns the next reply, or none when the reply held no tool call |
| Dispatch.Agent.RunRound | agent/main.py:77-117 | one pass either ends the turn with the outcome it was heading for, or leaves one round less with the same outcome ahead |
| Dispatch.Agent.RunTurn | agent/main.py:77-117 | the `while True` loop leaves the agent in the state `Turn` computes and returns its outcome |
| Dispatch.Agent.RunSession | agent/main.py:66-77 | the outer loop leaves the agent in the state `Session` computes, stopping at a quit word and after a turn that runs out of fuel |
| Terraform.NatDigits | mcp-server/server.py:24 | `str()` of a natural number is a non-empty run of digits |
| Terraform.DigitsRoundTrip | mcp-server/server.py:24 | reading back the digits gives the number |
| Terraform.DecimalRoundTrip | mcp-server/server.py:24 | reading back `str()` of any integer, negative ones included, gives it back |
| Terraform.AfterLastSpace | mcp-server/server.py:24 | the text after the last space is a suffix without spaces |
| Terraform.AfterLastSpaceOf | mcp-server/server.py:24 | for a text ending in a space and a word without spaces, that word is what follows the last space |
| Terraform.DecimalString | mcp-server/server.py:24 | `str()` of an integer: a minus sign for a negative one, then its digits (a definition; `DecimalRoundTrip` states its property) |
| Terraform.Report | mcp-server/server.py:24 | the report: `STDOUT:`, the output, `STDERR:`, the error output and `Exit Code:` with the code (a definition; `ReportExitCode` states its property) |
| Terraform.ReportFor | mcp-server/server.py:24-26 | the report of a run, or `Error running terraform <command>: ` and the launch error (a definition; `ReportOrLaunchError` states its property) |
| Terraform.ReportExitCode | mcp-server/server.py:24 | the exit code can be read back from the end of the report |
| Terraform.ReportOrLaunchError | mcp-server/server.py:24-26 | the outcome starts with `STDOUT:` and a newline exactly when the process was launched, so a report cannot be mistaken for the launch-error text |
| Terraform.BuildArgv | mcp-server/server.py:12-14 | the command line is `terraform`, the command, then the arguments in order; None or an empty list adds nothing |
| Terraform.RunCommand | mcp-server/server.py:10-26 | the runner gets that command line; the result is the report of the run, or the launch-error text |
| Terraform.TerraformInit | mcp-server/server.py:27-30 | runs `terraform init` with no flags |
| Terraform.TerraformPlan | mcp-server/server.py:31-34 | runs `terraform plan -no-color` |
| Terraform.TerraformApply | mcp-server/server.py:35-38 | runs `terraform apply -auto-approve -no-color` |
| Terraform.TerraformShow | mcp-server/server.py:39-42 | runs `terraform show -no-color` |
| Paths.Split | mcp-server/server.py:49 | splitting at `/` gives at least one piece, and no piece holds a `/` |
| Paths.JoinSplit | mcp-server/server.py:49 | joining the pieces with `/` gives back the path |
| Paths.SplitJoin | mcp-server/server.py:49 | splitting a join of slash-free pieces gives back the pieces |
| Paths.Collapse | mcp-server/server.py:49 | normalisation keeps only real names, with no empty, `.` or `..` components |
| Paths.CollapseAppend | mcp-server/server.py:49 | without `..`, components collapse one by one |
| Paths.CollapseClimb | mcp-server/server.py:49 | each trailing `..` drops one kept component and stops at the top |
| Paths.NormAbs | mcp-server/server.py:49 | `normpath` of an absolute path: the leading slashes, then the collapsed components joined by `/` (a definition; `NormalAbsolute`, `RelativeStaysInside` and `ParentsResolve` state its properties) |
| Paths.PyJoin | mcp-server/server.py:47 | `os.path.join`: an absolute name replaces the base, otherwise the name follows the base after one `/` (a definition; `JoinedComponents` and `AbsoluteReplacesRoot` state its properties) |
| Paths.Resolve | mcp-server/server.py:49 | `abspath(join(root, name))` (a definition; the lemmas below state where names resolve) |
| Paths.Accepts | mcp-server/server.py:49 | the guard, here and at line 62: the workspace string is a prefix of the resolved path (a definition; `RelativeStaysInside`, `ParentsRejected` and `SiblingAccepted` state what it lets through) |
| Paths.JoinedComponents | mcp-server/server.py:47-49 | a relative name is joined after one `/`, and the joined path splits into the workspace's components followed by the name's |
| Paths.RootOf | mcp-server/server.py:7 | the workspace path is absolute, has one leading slash, and no trailing slash |
| Paths.NormalAbsolute | mcp-server/server.py:7 | `abspath` leaves the workspace path unchanged |
| Paths.AbsoluteReplacesRoot | mcp-server/server.py:47-49 | an absolute name replaces the workspace path, and the guard then tests only that name |
| Paths.RelativeStaysInside | mcp-server/server.py:47-49 | a relative name without `..` resolves to the workspace or below it, and is accepted |
| Paths.ParentsResolve | mcp-server/server.py:49 | a name of k `..` steps resolves to the workspace path with its last k components dropped, or to `/` |
| Paths.ParentsRejected | mcp-server/server.py:47-49 | a name made only of `..` steps is rejected |
| Paths.ClimbResolves | mcp-server/server.py:49 | `../<s>/<f>` resolves to the workspace's parent followed by `s` and `f` |
| Paths.ClimbOneLevel | mcp-server/server.py:47-49 | `../<s>/<f>` is accepted exactly when the workspace's last component is a string prefix of `s` |
| Paths.SiblingResolves | mcp-server/server.py:49 | `../<last><tail>/<f>` resolves to the workspace path followed by `tail`, a slash and `f` |
| Paths.ContinuesRoot | mcp-server/server.py:62 | a path that continues the workspace string without a slash is neither the workspace nor below it |
| Paths.SiblingAccepted | mcp-server/server.py:47-49 | a sibling whose name extends the workspace's last component is accepted, yet lies outside the workspace |
| Paths.ExampleInside | mcp-server/server.py:47-49 | in `/srv/agent/terraform_workspace`, `main.tf` is accepted and resolves to the entry of that name |
| Paths.ExampleClimbs | mcp-server/server.py:47-49 | there, `../etc/passwd` and `../..` are rejected |
| Paths.ExampleSibling | mcp-server/server.py:47-49 | there, `../terraform_workspace_evil/f` is accepted although it lies outside the workspace |
| WorkspaceFiles.ParentDir | mcp-server/server.py:52 | the directory part of a path is a prefix of it |
| WorkspaceFiles.ParentOfChild | mcp-server/server.py:52 | the directory part of `<dir>/<n>` is `dir` |
| WorkspaceFiles.WriteOutcome | mcp-server/server.py:44-56 | a write changes no directory, and changes files only when the guard accepts, and then only at the resolved path; it fails on a joined path naming a directory, as `IsADirectory`, `NotADirectory` or `MissingDirectory` after the kernel's errors |
| WorkspaceFiles.Entries | mcp-server/server.py:75 | listed names are non-empty and hold no `/` |
| WorkspaceFiles.WriteGuard | mcp-server/server.py:47-50 | a write gives the outside-workspace message exactly when the guard rejects it, and a rejected write changes nothing |
| WorkspaceFiles.LastPiece | mcp-server/server.py:52 | the last piece of the joined path, the one the kernel's lookup looks at last (a definition) |
| WorkspaceFiles.NamesDirectory | mcp-server/server.py:52 | the kernel's rule behind `open` here and at line 67: a joined path whose last piece is empty, `.` or `..` can only be a directory (a definition; `WriteSucceeds`, `ReadGuard` and `SlashNameIsDirectory` state its effect) |
| WorkspaceFiles.Exists | mcp-server/server.py:65 | `os.path.exists`: a directory, or a file reached by a path that does not name a directory (a definition; `ReadGuard` states its effect) |
| WorkspaceFiles.UniversalNewlines | mcp-server/server.py:67-68 | the text-mode read: the result holds no carriage return and is no longer than the file |
| WorkspaceFiles.NoCarriageReturnKept | mcp-server/server.py:67-68 | text without a carriage return reads back unchanged |
| WorkspaceFiles.TranslationIdempotent | mcp-server/server.py:67-68 | translating what was read changes nothing more |
| WorkspaceFiles.ReadOutcome | mcp-server/server.py:58-70 | `read_file` on a file-system value (a definition; `ReadGuard` states all its cases) |
| WorkspaceFiles.ReadGuard | mcp-server/server.py:61-68 | a rejected read gives the outside-workspace message; an accepted name gives `Error: File <n> not found.` when nothing is there or when a file is reached through a path ending in `/`, `/.` or `/..`; a directory gives the read error for it; otherwise the file's contents with `\r\n` and `\r` read as `\n` |
| WorkspaceFiles.ReadThroughDirectoryName | mcp-server/server.py:64-65 | a file reached through a path that names a directory is not found |
| WorkspaceFiles.ReadThroughFile | mcp-server/server.py:64-68 | a file reached by a path that does not name a directory reads as its translated contents |
| WorkspaceFiles.Writable | mcp-server/server.py:52 | when `open(filepath, "w")` succeeds: the guard accepts, the target is not a directory, its parent is one, and the joined path does not name a directory (a definition; `WriteSucceeds` states it is exact) |
| WorkspaceFiles.WriteSucceeds | mcp-server/server.py:52-56 | a write reports `Successfully wrote to <n>` exactly when the guard accepts, the target is not a directory, its parent is one and the joined path does not name a directory; a failed write changes nothing |
| WorkspaceFiles.WriteThenRead | mcp-server/server.py:52-68 | a write that can open its file reports `Successfully wrote to <n>`; any name resolving to the same path then reads back the contents written with their line ends translated, exactly the contents when they hold no `\r`, unless it is reached through a path naming a directory, which is not found |
| WorkspaceFiles.CrLfReadBack | mcp-server/server.py:52-68 | `a\r\nb` written to a plain name is stored as it is and read back as `a\nb` |
| WorkspaceFiles.WriteKeepsOthers | mcp-server/server.py:52-53 | a write does not change the read of a name that resolves elsewhere |
| WorkspaceFiles.WriteStaysUnderPrefix | mcp-server/server.py:49-53 | a write changes no path that does not start with the workspace string |
| WorkspaceFiles.WriteKeepsValid | mcp-server/server.py:52-53 | a write keeps the workspace a directory, and keeps files and directories apart |
| WorkspaceFiles.PlainNameIsFile | mcp-server/server.py:47 | the joined path of a plain name ends in that name, so it does not name a directory |
| WorkspaceFiles.SlashNameIsDirectory | mcp-server/server.py:47-49 | `<n>/` resolves where `<n>` does, but its joined path names a directory |
| WorkspaceFiles.TrailingSlashWriteFails | mcp-server/server.py:52-56 | `write_file("<n>/")` fails and changes nothing, whatever is at `<n>` |
| WorkspaceFiles.TrailingSlashReadFails | mcp-server/server.py:64-65 | `read_file("<n>/")` for a file `<n>` gives `Error: File <n>/ not found.` |
| WorkspaceFiles.EndsInFile | mcp-server/server.py:47 | a relative name ending in `/<f>` for a file name `f` does not name a directory once joined |
| WorkspaceFiles.PlainNameResolves | mcp-server/server.py:47-49 | a plain file name resolves to `<workspace>/<name>` and is accepted |
| WorkspaceFiles.DotPrefixSame | mcp-server/server.py:47-49 | `./<n>` and `<n>` name the same file |
| WorkspaceFiles.EntriesAfterStore | mcp-server/server.py:52-75 | storing a file adds its name to the listing when the file lies directly in the workspace, and changes the listing in no other way |
| WorkspaceFiles.PlainWrite | mcp-server/server.py:44-54 | writing a plain name succeeds unless a directory of that name exists; the file is then stored and listed |
| WorkspaceFiles.SiblingWriteEscapes | mcp-server/server.py:47-53 | a write to a sibling whose name extends the workspace name stores a file outside the workspace |
| WorkspaceFiles.JoinLines | mcp-server/server.py:76 | `"\n".join`: the names with a newline between each two (a definition; `TwoNamesListed` and `ListFiles` state its use) |
| WorkspaceFiles.DistinctWithin | mcp-server/server.py:75-76 | a listing without repeats is no longer than the set of entries |
| WorkspaceFiles.TwoNamesListed | mcp-server/server.py:76 | two entries are listed as `a\nb` or `b\na` |
| WorkspaceFiles.TwoPlainWrites | mcp-server/server.py:52-75 | an empty workspace with two plain names written lists exactly those two |
| WorkspaceFiles.FreshWorkspaceListing | mcp-server/server.py:52-76 | after writing `a.txt` and `b.txt` into an empty workspace, the listing is those two names on two lines, in either order |
| WorkspaceFiles.Workspace.constructor | mcp-server/server.py:7-9 | the workspace path is `<cwd>/terraform_workspace`, which becomes a directory; everything else is kept |
| WorkspaceFiles.Workspace.WriteFile | mcp-server/server.py:44-56 | the method leaves the file system and returns the message that `WriteOutcome` gives, and keeps the invariant |
| WorkspaceFiles.Workspace.ReadFile | mcp-server/server.py:58-70 | the method returns what `ReadOutcome` gives, translated line ends included |
| WorkspaceFiles.Workspace.ListFiles | mcp-server/server.py:72-76 | the method lists every entry once, in some order, joined with newlines |

## Left out

- The language model backend is left out: `agent/llm.py`, including its API-key check, and any failure of `send_message`. The model's reply is a function parameter.
- The MCP stdio transport, session set-up, tool discovery and asyncio are left out, because they are connection plumbing.
- The system-prompt text and the Gemini tool-mapping loop are left out; they are prose and a no-op.
- `print` of the `[Agent calling tool: ...]` line (agent/main.py:94) is left out. It needs Python's `str()` of dicts, and it does not affect the loop.
- `input()` and the console prompts are left out. User lines are a sequence, and the session ends when that sequence ends.
- Turn: the inner loop has no bound in the source. The model gives each turn a fuel bound, and `OutOfFuel` stands for a loop that is still running. Such a turn therefore ends the session (`Session`, `Agent.RunSession`): the source never reads another input.
- Dispatch.Lower: only A to Z are lowered; other Unicode case mappings are not modelled. No other character lowers to a single letter of `quit` or `exit` (the Kelvin sign lowers to `k`, and dotted capital I lowers to two characters), so `IsQuit` decides as the source does.
- Python's `str()` of a tool name that is a number, a list or a dict is a function parameter (`Oracles.pyStr`); a string, None and the booleans are spelled out (`NameText`).
- `json.loads` is a function parameter, not a JSON grammar. The `Json` value records what the loop inspects.
- Regular expressions are modelled only as the two fixed patterns, not as a general engine.
- What `subprocess.run` does, and what terraform does, are left out. The runner is a parameter, and the working directory is not passed to it.
- The file system is modelled as values keyed by normalised path. Left out are:
  - symlinks;
  - file permissions;
  - encodings (newline translation on reading is modelled: `UniversalNewlines`);
  - failures other than "is a directory", "no such directory" and "not a directory";
  - a parent that is a file, which the model reports as a missing directory where the kernel says "not a directory";
  - the fact that the operating system resolves `..` inside a path against real directories, where the model resolves it by text as `normpath` does. A joined path's last piece is taken into account: one ending in `/`, `/.` or `/..` must be a directory.
- The `Error listing files:` branch of `list_files` never arises in the model, because the workspace directory always exists there (`Workspace.Inv`).
- `os.listdir` returns entries in an order the file system chooses. The model states that the listing is some duplicate-free order of the entries.
- WorkspaceFiles.Workspace.constructor: `os.makedirs` also creates missing ancestors of the workspace. The model adds only the workspace itself to the directories.
- The two syntactic defects in agent/main.py are not modelled; the model follows the evident intent. The first is the mis-indented line 62, which puts `llm` outside `run()`. The second is `if name == "main"` at line 118.
- A descendant check would reject `/x/terraform_workspace_evil/f`. The code does a raw string-prefix test and accepts it, and the model follows the code (`Paths.SiblingAccepted`).
