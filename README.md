# Keyword-routing CLI agent and its file tool, in Dafny

This project models the core of a command-line coding assistant.

`SimpleAgent.process` takes one user message and handles it in four steps:

1. It counts the request.
2. It lower-cases and strips the message.
3. It tests the result against four fixed keyword lists, in a fixed priority order: file list, shell command, `git`, file read. A message matching none of them goes to chat.
4. It hands the message to the handler of that route. The shell, `git` and file-read routes first pull their argument out of the original message with a regular expression and a fixed default, and their handlers get that argument. The file-list route takes no argument, and the chat route gets the message itself.

The handlers keep the usage statistics and the conversation transcript. The file handlers call `FileTool.execute`, which has two parts:

- a check of its two required parameters;
- a dispatch to read, write, append, delete, list or exists, over a filesystem.

Nothing in `execute` raises; every failure comes back as an `Error: ...` string.

Modules:

- `common.dfy` holds `Option` and `Result`.
- `text.dfy` holds Python's `str.isspace`, `strip`, `lower` (ASCII and Cyrillic), substring membership, `join` and `str(n)`, with the digits' value as its reference.
- `router.dfy` holds the keyword tests and the classifier. It also holds the three argument extractors, written as scanners that follow `re.search`: the leftmost match, greedy repetition that gives characters back, and `.` stopping at a newline.
- `files.dfy` models the filesystem as a map from a path's parts to `File(content)` or `Dir`. The operations are functions of that map. `FileTool` is a class whose `fs` field the write, append and delete methods replace. The listing is built by a loop over the names in sorted order.
- `agent.dfy` holds `SimpleAgent`, a class whose fields are the statistics and the transcript. It also holds `Step` functions that say what each handler does to the agent's state.

Three outside services are parameters. `Services` bundles them as functions from a request to an outcome:

- the language model, streamed and non-streamed;
- the bash tool;
- the git tool.

Each outcome is a result, or the message of the exception raised.

In these places the model follows the code as written:

- The `errors` counter is never incremented. No handler touches it, and the lemmas `DispatchKeepsCounters` and `ToolCounts` prove that.
- When streaming fails, the partial text is thrown away. The reply, and the assistant turn recorded, is `"Ошибка: " + message`.
- A failed file operation is not a raised error. `execute` turns it into a string, and the handler counts a use of the file tool.
- The agent calls the file tool with the keys `action`, `directory` and `file_path`. `execute` reads `operation` and `path`, so both file handlers always receive `Error: Missing required parameters`, and the filesystem never changes (`FileHandlersRefused`).

## Model

| member | source | states |
|---|---|---|
| Text.Strip | core/agent_simple.py:56 | the result is a slice of the input with only whitespace (Python's `isspace` set) before and after it, and it neither starts nor ends with whitespace |
| Text.Lower | core/agent_simple.py:56 | same length, each character lower-cased on its own |
| Text.Contains | core/agent_simple.py:82 | `kw in msg` holds exactly when `kw` occurs at some index of `msg` |
| Text.NatToString | tools/file_tool.py:104 | the decimal text of a length: at least one digit, only digits, no leading zero, and the digits denote the number (`DigitsValue(r) == n`) |
| Router.AnyKeyword | core/agent_simple.py:78-96 | `any(kw in msg ...)` holds exactly when some keyword of the list occurs in the text |
| Router.FileListWins | core/agent_simple.py:59-60 | a file-list keyword in the normalized text routes to the file list, whatever else the message holds |
| Router.ShellBeforeGit | core/agent_simple.py:62-64 | without a file-list keyword, a shell keyword routes to bash with the extracted command, even when `git` is present |
| Router.GitBeforeRead | core/agent_simple.py:66-68 | without file-list or shell keywords, `git` routes to git ahead of the read keywords |
| Router.ReadBeforeChat | core/agent_simple.py:70-76 | without file-list, shell or `git` keywords, a read keyword routes to the file reader with the extracted path, ahead of chat |
| Router.Classify | core/agent_simple.py:56-76 | definition: the keyword tests on `msg.lower().strip()` in the order file list, shell, `git`, file read, each with its argument taken from the original message, else chat |
| Router.ChatIffNoKeyword | core/agent_simple.py:56-76 | a message goes to chat exactly when its normalized text contains none of the keywords of the four lists |
| Router.ContainsIgnoresStrip | core/agent_simple.py:56 | a keyword with no whitespace at either end occurs in `t.strip()` exactly when it occurs in `t` |
| Router.AnyKeywordIgnoresStrip | core/agent_simple.py:78-96 | the same for a whole keyword list |
| Router.KeywordsTrimmed | core/agent_simple.py:80-95 | every keyword is non-empty with no whitespace at either end |
| Router.KeywordTestsIgnoreStrip | core/agent_simple.py:56-96 | each of the four tests gives the same answer on `msg.lower()` as on `msg.lower().strip()` |
| Router.VerbAtFrom | core/agent_simple.py:108 | case-insensitive match of a trigger word at a position, character by character |
| Router.GroupStart | core/agent_simple.py:102-105 | where `\s+(.+)` starts its group: after at least one whitespace character, at the last position the whitespace run can give back that is not a newline; no later start exists |
| Router.GroupAt | core/agent_simple.py:110 | the captured group starts where `GroupStart` puts it after the verb, is non-empty, holds no newline, and runs up to the next newline or the end of the message |
| Router.FindMatch | core/agent_simple.py:108 | the result matches the pattern, and no earlier position does; `None` only when nothing matches from that position on |
| Router.FindMatchLeftmost | core/agent_simple.py:108 | the search returns the leftmost match |
| Router.FindMatchNone | core/agent_simple.py:108-109 | the search returns nothing when the pattern matches nowhere |
| Router.SearchVerbs | core/agent_simple.py:107-110 | `None` exactly when no trigger word of the list matches anywhere; a result is stripped and holds no newline |
| Router.SearchVerbsFirstLeftmost | core/agent_simple.py:101-110 | the patterns are tried in list order: the result is the stripped group of the leftmost match of the first pattern that matches |
| Router.ExtractCommandSpec | core/agent_simple.py:98-112 | `_extract_command` gives the stripped group of the first matching verb (запусти, выполни, run, execute) at its leftmost match, else the stripped whole message; the result is always stripped |
| Router.ExtractCommand | core/agent_simple.py:98-112 | definition: the first result of the pattern search over the four verbs, else `msg.strip()` |
| Router.ExtractGitCommandSpec | core/agent_simple.py:114-120 | `_extract_git_command` gives the stripped group after the leftmost `git` plus whitespace, else "status"; a non-default result holds no newline |
| Router.ExtractGitCommand | core/agent_simple.py:114-120 | definition: the result of the search for `git` plus whitespace, else "status" |
| Router.StripKeepsNoNewline | core/agent_simple.py:110 | stripping a one-line group keeps it one line |
| Router.PathDot | core/agent_simple.py:125 | the dot the group ends on is the last dot followed by a letter inside the run of path characters |
| Router.GroupStartAt | core/agent_simple.py:125 | the group starts after an opening quote whenever the rest of the pattern matches there (the greedy `['"]?`), else directly at the position; there is no match at the position exactly when neither works |
| Router.FindPath | core/agent_simple.py:125 | the leftmost position where the path pattern matches |
| Router.PathGroup | core/agent_simple.py:125-127 | the group uses only `[a-zA-Z0-9_./-]`, occurs in the message where it starts, runs past `PathDot`'s dot through the whole run of letters after it (the greedy `[a-zA-Z]+`), and stops before a non-letter or the end |
| Router.ExtractFilePathSpec | core/agent_simple.py:122-128 | `_extract_file_path` gives "README.md" when the pattern matches nowhere, and otherwise the group of the leftmost match; that group is path-shaped and occurs in the message |
| Router.ExtractFilePath | core/agent_simple.py:122-128 | definition: the group at the first position where the path pattern matches, else "README.md" |
| Router.FindPathLeftmost | core/agent_simple.py:125 | the search for the path pattern returns its leftmost match |
| Files.Components | tools/file_tool.py:81 | the parts of a path are non-empty, never ".", and hold no slash; a path without a slash other than "" and "." is a single part |
| Files.ComponentsJoin | tools/file_tool.py:81 | the parts of `a/b` are the parts of `a` followed by the parts of `b` |
| Files.DotSlashSamePath | tools/file_tool.py:81 | `./p` names the same entry as `p` |
| Files.ReadFile | tools/file_tool.py:79-92 | definition: the does-not-exist error, the not-a-file error for a directory, or the header and the stored text as a text-mode read returns it |
| Files.ReadText | tools/file_tool.py:89-90 | what a text-mode `read()` returns for stored text: no carriage return is left and it is never longer; `ReadTextCRLF`, `ReadTextCR` and `ReadTextKeeps` give its value |
| Files.ReadTextCRLF | tools/file_tool.py:89-90 | a "\r\n" reads as one "\n": the text before it is kept and the rest is read on |
| Files.ReadTextCR | tools/file_tool.py:89-90 | a lone "\r", not followed by "\n", reads as "\n": the text before it is kept and the rest is read on |
| Files.ReadTextKeeps | tools/file_tool.py:89-90 | text without a carriage return reads back unchanged |
| Files.ReadTextIdempotent | tools/file_tool.py:89-90 | reading back text that was already read changes nothing more |
| Files.CheckExists | tools/file_tool.py:142-145 | definition: "Path 'p' exists: " followed by True when the path names an entry, else False |
| Files.MakeDirs | tools/file_tool.py:99 | definition: `mkdir(parents=True, exist_ok=True)`, creating the missing directories from the top, failing on a file on the way or at the target |
| Files.Write | tools/file_tool.py:94-104 | definition: make the parent directories, then fail on a directory at the target, else store the content there |
| Files.Append | tools/file_tool.py:106-113 | definition: extend an existing file, create a new one in an existing directory, and fail with the OS error otherwise |
| Files.Unlink | tools/file_tool.py:122 | definition: remove a file; a directory fails with "Is a directory" |
| Files.StrLt | tools/file_tool.py:136 | definition: Python's `<` on strings, code points compared from the left, a proper prefix first |
| Files.ListText | tools/file_tool.py:125-140 | definition: the two errors, else the header and one `[DIR]`/`[FILE]` line per entry in `sorted` order |
| Files.ExecuteSpec | tools/file_tool.py:47-77 | definition: the parameter check, the six operations and the unknown-operation error, each raised error turned into its string |
| Files.FileTool.Execute | tools/file_tool.py:47-77 | the reply and the new filesystem are those of `ExecuteSpec`: the parameter check, then the six-way dispatch, with each raised error turned into its `Error: Error in file operation:` string; the tree stays well formed |
| Files.FileTool.WriteFile | tools/file_tool.py:94-104 | success replaces the filesystem by `Write`'s result and reports the character count; a failure changes nothing and returns the OS error |
| Files.FileTool.AppendFile | tools/file_tool.py:106-113 | success replaces the filesystem by `Append`'s result; a failure changes nothing |
| Files.FileTool.DeleteFile | tools/file_tool.py:115-123 | a missing path gives the does-not-exist message and changes nothing; otherwise the entry is removed, or unlinking a directory fails and changes nothing |
| Files.FileTool.ListDirectory | tools/file_tool.py:125-140 | the loop's text is `ListText`: the errors for a missing path or a file, else the header and one tagged line per entry in sorted name order |
| Files.SortedNames | tools/file_tool.py:136 | `sorted` of a set of names: each name once, nothing else, strictly increasing |
| Files.SortedUnique | tools/file_tool.py:136 | two strictly increasing sequences with the same names are equal |
| Files.ChildNamesExact | tools/file_tool.py:136 | the names listed are exactly the entries directly inside the directory |
| Files.ListingOrder | tools/file_tool.py:125-140 | any strictly increasing arrangement of the directory's entries is the one the listing shows |
| Files.MakeDirsGrows | tools/file_tool.py:99 | a successful `mkdir -p` keeps every entry, adds only directories on the way to the target, and leaves the target a directory |
| Files.MakeDirsOkIffUnblocked | tools/file_tool.py:99 | `mkdir -p` succeeds exactly when no file stands at the target or on the way to it |
| Files.WriteOkIff | tools/file_tool.py:94-104 | a write succeeds exactly when no file blocks the parent directories and the target is not a directory |
| Files.WriteFrame | tools/file_tool.py:94-104 | after a write the target holds the new content, every other entry is kept, and only parent directories are added |
| Files.WriteThenRead | tools/file_tool.py:79-104 | reading after a successful write returns the header and the content written with its line endings translated, and the content itself when it holds no carriage return |
| Files.AppendThenRead | tools/file_tool.py:79-113 | reading after an append returns the old content (none for a new file) followed by the new, with line endings translated; no other entry changes |
| Files.AppendTwice | tools/file_tool.py:106-113 | two appends to an existing file equal one append of both pieces |
| Files.ExecuteWriteThenRead | tools/file_tool.py:47-104 | through `execute`: a write reported as successful is read back with its line endings translated, and verbatim when it holds no carriage return |
| Files.ExecuteDeleteThenExists | tools/file_tool.py:115-145 | through `execute`: after a delete reported as successful, the entry is gone and `exists` reports False |
| Files.ReadOnlyOperations | tools/file_tool.py:58-72 | every operation other than write, append and delete leaves the filesystem unchanged |
| Files.ErrorsChangeNothing | tools/file_tool.py:47-77 | a call whose reply starts with "Error" leaves the filesystem unchanged |
| Files.AgentKeysRefused | tools/file_tool.py:49-54 | the parameter maps the agent builds get the missing-parameters reply and change nothing |
| Files.WriteKeepsWellFormed | tools/file_tool.py:94-104 | a successful write keeps the tree well formed |
| Files.UnlinkKeepsWellFormed | tools/file_tool.py:122 | removing a file keeps the tree well formed |
| Agent.ChatWithContext | core/agent_simple.py:209-226 | the reply is the stripped model answer to the system prompt and one user message, or "" when the call fails; it is always stripped |
| Agent.Counted | core/agent_simple.py:135 | `tools_used[name]` goes up by one from its old value or 0; every other count is kept |
| Agent.PairedGrows | core/agent_simple.py:191-207 | adding a user turn and then an assistant turn keeps the transcript in user/assistant pairs |
| Agent.CollectedAppend | core/agent_simple.py:245-253 | the streamed text of two runs of chunks is the two texts joined |
| Agent.CollectedPiece | core/agent_simple.py:245-253 | each chunk's content sits in the streamed text between the text before it and the text after it |
| Agent.CollectedSkips | core/agent_simple.py:246-249 | a malformed chunk, or one with empty content, adds nothing |
| Agent.Collected | core/agent_simple.py:245-253 | definition: the contents of the chunks joined in order, a chunk without content adding nothing |
| Agent.StreamText | core/agent_simple.py:228-260 | definition: the collected text for a completed stream, `Ошибка: ` plus the message for a broken one |
| Agent.ChatSpec | core/agent_simple.py:191-207 | definition: the user turn, the streamed answer to the system prompt plus the transcript as the assistant turn, reply "" |
| Agent.ToolSpec | core/agent_simple.py:147-171 | definition: a returned call counts a use of the tool and replies ""; a raised one replies with the error and changes nothing |
| Agent.FileListSpec | core/agent_simple.py:130-145 | definition: the file tool lists, a use of `file` is counted, and the reply is the summary of its answer |
| Agent.FileReadSpec | core/agent_simple.py:173-189 | definition: the file tool reads, a use of `file` is counted, reply "" |
| Agent.Dispatch | core/agent_simple.py:58-76 | definition: the handler of each intent |
| Agent.SelfImproveSpec | core/agent_simple.py:278-290 | definition: one more self-improvement, then `_chat` with the prompt |
| Agent.DispatchKeepsCounters | core/agent_simple.py:51-76 | no route changes `requests` (beyond the count in `process`), `errors` or `self_improvements` |
| Agent.ProcessCounts | core/agent_simple.py:51-76 | `process` raises `requests` by exactly one and leaves `errors` and `self_improvements` as they were |
| Agent.OnlyChatTalks | core/agent_simple.py:51-76 | only the chat route changes the transcript, adding two turns; the other routes keep it |
| Agent.ToolCounts | core/agent_simple.py:147-171 | a use is counted exactly when the tool returns, and the reply is "" exactly then; a raising tool changes nothing and gives `Ошибка: ` plus its message |
| Agent.FileHandlersRefused | core/agent_simple.py:130-189 | both file handlers count a use and keep the filesystem; the listing summary is asked about the missing-parameters error |
| Agent.ChatAddsPair | core/agent_simple.py:191-207 | `_chat` answers "", appends the user turn and an assistant turn, keeps the pairing and changes nothing else |
| Agent.SelfImproveCounts | core/agent_simple.py:278-290 | one more self-improvement, two more turns starting with the prompt, every other counter kept |
| Agent.SimpleAgent.constructor | core/agent_simple.py:21-47 | all counters zero, no tool used, empty transcript |
| Agent.SimpleAgent.Process | core/agent_simple.py:51-76 | the new state and reply are those of `Dispatch` on the counted state and the intent `Classify` gives |
| Agent.SimpleAgent.CountAndRoute | core/agent_simple.py:53 | the request is counted before routing |
| Agent.SimpleAgent.Route | core/agent_simple.py:58-76 | each intent goes to its own handler |
| Agent.SimpleAgent.HandleFileList | core/agent_simple.py:130-145 | the file tool lists, a use of `file` is counted, and the reply is the model's summary |
| Agent.SimpleAgent.HandleFileRead | core/agent_simple.py:173-189 | the file tool reads, a use of `file` is counted, and the reply is "" |
| Agent.SimpleAgent.HandleTool | core/agent_simple.py:147-171 | bash and git handlers as `ToolSpec`: counted on return, error message on raise |
| Agent.SimpleAgent.Chat | core/agent_simple.py:191-207 | the transcript and reply are those of `ChatSpec`; the transcript stays paired |
| Agent.SimpleAgent.CallModelStreaming | core/agent_simple.py:228-260 | the loop's text is the in-order concatenation of the chunk contents, or `Ошибка: ` plus the message when the stream breaks |
| Agent.SimpleAgent.ClearHistory | core/agent_simple.py:262-264 | the transcript is emptied and nothing else changes, so a second call changes nothing |
| Agent.SimpleAgent.SelfImprove | core/agent_simple.py:278-283 | one more self-improvement, then a chat with the fixed prompt |
| Agent.SimpleAgent.SelfImproveOnError | core/agent_simple.py:285-290 | one more self-improvement, then a chat with the prompt built from the error |

## Left out

- The language-model client (`ollama.Client`) is not part of this model. Its two calls are the functions `Services.stream` and `Services.complete`, which give the same outcome for the same message list. The host, the model name and the temperature and length options are dropped.
- `BashTool` and `GitTool` are not part of this model. They are the functions `Services.bash` and `Services.git`, which return a result or raise.
- Agent.ToolSpec, Agent.SimpleAgent.HandleTool: what a bash or git command does to the files is not modelled. The filesystem stays unchanged on those two routes, although the real commands can create, change or delete the files the file tool works on. Nothing else the agent does reads the filesystem, because its file handlers are always refused.
- `SelfModifyTool` is created but never called by this agent, so it is left out.
- Console output is left out: the status markers, the echo of tool results, the spinner clearing driven by the `first` flag, `print_status` and logging. The 500-character truncation of a displayed file only affects what is printed, so it is left out too.
- Agent.SimpleAgent.HandleFileList: the `except` branch is not modelled. It cannot be reached, because `execute` never raises and `_chat_with_context` catches every failure.
- Agent.SimpleAgent.HandleFileRead: the `except` branch is not modelled, because `execute` never raises.
- `str.lower` and `re.IGNORECASE` are limited to ASCII and the basic Cyrillic letters. Other scripts are compared unchanged.
- Filesystem details are left out: absolute paths (treated like relative ones), `..` (treated as an ordinary name), symbolic links, permissions, encodings and I/O errors. Error texts omit the file name Python appends. Deleting a directory fails as `unlink` does on Linux, and a text-mode write stores the text unchanged, as it does on Linux.
- The write and append replies report `len(content)`, which counts characters, not UTF-8 bytes. The model does the same as the code.
- A parameter value that is not a string, and a stream chunk whose content is not a string, are left out. Parameters are `map<string, string>`, and a chunk's content is `Option<string>`.
- `get_schema` is a static description with no behaviour, so it is left out.
