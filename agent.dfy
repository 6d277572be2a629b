/**
 * The keyword-routing agent (core/agent_simple.py): `process` counts the
 * request, classifies the message and hands it to the file-list, bash, git or
 * file-read handler, or to chat; the handlers keep the usage statistics and
 * the conversation transcript.
 *
 * The language model and the bash and git tools are not part of this model:
 * they are the function-valued fields of `Services`, each answering a
 * request with an outcome (a result, or the message of the exception raised).
 */
module Agent {
  import opened Common
  import opened Text
  import opened Router
  import opened Files

  // ---------------------------------------------------------------------
  // Messages and the outside services
  // ---------------------------------------------------------------------

  datatype Role = System | User | Assistant
  datatype Turn = Turn(role: Role, content: string)

  /** What a bash or git tool call does: return a result, or raise with a message. */
  datatype ToolOutcome = Returned(output: string) | Raised(message: string)

  /**
   * A streamed model call: the chunks delivered, each `None` when it lacks
   * `message.content`, and then either the end of the stream or an exception
   * (raised when the call is made or part-way through the chunks).
   */
  datatype StreamOutcome =
    | Completed(chunks: seq<Option<string>>)
    | Broken(delivered: seq<Option<string>>, message: string)

  /** A non-streamed model call: the reply's `message.content`, or a failure (including a malformed reply). */
  datatype Completion = Answered(content: string) | Failed(message: string)

  datatype Services = Services(
    bash: string -> ToolOutcome,
    git: string -> ToolOutcome,
    stream: seq<Turn> -> StreamOutcome,
    complete: seq<Turn> -> Completion)

  const SystemPrompt: string := "Ты AutoCLI - AI агент для кода. Отвечай кратко, без эмодзи."
  const ErrorPrefix: string := "Ошибка: "
  const SelfImprovePrompt: string := "Проанализируй свой код и предложи улучшения."

  function SelfImproveOnErrorPrompt(err: string): string {
    "Произошла ошибка: " + err + "\nПроанализируй и предложи исправление."
  }

  /** The prompt that asks the model to summarise a file listing. */
  function FileListPrompt(listing: string): string {
    "Пользователь спросил про файлы. Вот список файлов:\n" + listing
      + "\n\nОпиши коротко структуру (3-5 пунктов, без эмодзи)"
  }

  /** The parameters the agent hands to the file tool. */
  const ListParams: map<string, string> := map["action" := "list", "directory" := "."]

  function ReadParams(path: string): map<string, string> {
    map["action" := "read", "file_path" := path]
  }

  // ---------------------------------------------------------------------
  // The model calls
  // ---------------------------------------------------------------------

  /** One chunk's contribution to the streamed text: its content, or nothing for a malformed chunk. */
  function Piece(chunk: Option<string>): string {
    chunk.GetOr("")
  }

  /** The streamed text: the pieces of the chunks, in the order they came. */
  function Collected(chunks: seq<Option<string>>): string {
    if chunks == [] then ""
    else Collected(chunks[..|chunks| - 1]) + Piece(chunks[|chunks| - 1])
  }

  /** What `_call_model_streaming` returns for a stream: the text on success, the error otherwise. */
  function StreamText(outcome: StreamOutcome): string {
    match outcome
    case Completed(chunks) => Collected(chunks)
    case Broken(_, message) => ErrorPrefix + message
  }

  /** The messages of `_chat_with_context`: the system prompt and the one user message, no history. */
  function ContextTurns(message: string): seq<Turn> {
    [Turn(System, SystemPrompt), Turn(User, message)]
  }

  /** `_chat_with_context`: the trimmed reply, or "" when the call fails. */
  function ChatWithContext(complete: seq<Turn> -> Completion, message: string): (r: string)
    ensures IsStripped(r)
    ensures complete(ContextTurns(message)).Failed? ==> r == ""
    ensures complete(ContextTurns(message)).Answered? ==>
      exists a :: StrippedAt(complete(ContextTurns(message)).content, r, a)
  {
    match complete(ContextTurns(message))
    case Answered(content) => Strip(content)
    case Failed(_) => ""
  }

  // ---------------------------------------------------------------------
  // The agent's state and what each step does to it
  // ---------------------------------------------------------------------

  /** The agent's statistics, its transcript and the filesystem under its file tool. */
  datatype AgentState = AgentState(
    requests: nat,
    errors: nat,
    selfImprovements: nat,
    toolsUsed: map<string, nat>,
    history: seq<Turn>,
    fs: FileSystem)

  datatype Step = Step(state: AgentState, reply: string)

  /** `tools_used[name] = tools_used.get(name, 0) + 1`. */
  function Counted(used: map<string, nat>, name: string): (r: map<string, nat>)
    ensures name in r && r[name] == (if name in used then used[name] else 0) + 1
    ensures forall n :: n in used && n != name ==> n in r && r[n] == used[n]
    ensures r.Keys == used.Keys + {name}
  {
    used[name := (if name in used then used[name] else 0) + 1]
  }

  /** A transcript made of user-then-assistant pairs, which is all `_chat` ever adds. */
  ghost predicate Paired(h: seq<Turn>) {
    && |h| % 2 == 0
    && forall i :: 0 <= i < |h| ==> h[i].role == (if i % 2 == 0 then User else Assistant)
  }

  /** A user turn followed by an assistant turn keeps the transcript paired. */
  lemma PairedGrows(h: seq<Turn>, question: string, answer: string)
    requires Paired(h)
    ensures Paired(h + [Turn(User, question)] + [Turn(Assistant, answer)])
  {
    var h' := h + [Turn(User, question)] + [Turn(Assistant, answer)];
    forall i | 0 <= i < |h'| ensures h'[i].role == (if i % 2 == 0 then User else Assistant) {
      if i == |h| + 1 {
        assert (|h| + 1) % 2 == 1;
      } else if i < |h| {
        assert h'[i] == h[i];
      }
    }
  }

  /** The messages `_call_model_streaming` sends: the system prompt, then the whole transcript. */
  function StreamTurns(history: seq<Turn>): seq<Turn> {
    [Turn(System, SystemPrompt)] + history
  }

  /** `_chat`. */
  function ChatSpec(s: AgentState, message: string, sv: Services): Step {
    var h := s.history + [Turn(User, message)];
    var answer := StreamText(sv.stream(StreamTurns(h)));
    Step(s.(history := h + [Turn(Assistant, answer)]), "")
  }

  /** `_handle_bash` and `_handle_git`: a use is counted only when the tool returns. */
  function ToolSpec(s: AgentState, name: string, outcome: ToolOutcome): Step {
    match outcome
    case Returned(_) => Step(s.(toolsUsed := Counted(s.toolsUsed, name)), "")
    case Raised(message) => Step(s, ErrorPrefix + message)
  }

  /** `_handle_file_list`: the file tool's answer goes to the model for a summary. */
  ghost function FileListSpec(s: AgentState, sv: Services): Step {
    var reply := ExecuteSpec(s.fs, ListParams);
    Step(s.(toolsUsed := Counted(s.toolsUsed, "file"), fs := reply.fs),
         ChatWithContext(sv.complete, FileListPrompt(reply.text)))
  }

  /** `_handle_file_read`: the file tool's answer is only displayed. */
  ghost function FileReadSpec(s: AgentState, path: string): Step {
    var reply := ExecuteSpec(s.fs, ReadParams(path));
    Step(s.(toolsUsed := Counted(s.toolsUsed, "file"), fs := reply.fs), "")
  }

  /** `process` after counting the request: the handler for the first keyword test that holds. */
  ghost function Dispatch(s: AgentState, intent: Intent, msg: string, sv: Services): Step {
    match intent
    case FileList => FileListSpec(s, sv)
    case ShellRun(command) => ToolSpec(s, "bash", sv.bash(command))
    case VcsRun(subcommand) => ToolSpec(s, "git", sv.git(subcommand))
    case FileRead(path) => FileReadSpec(s, path)
    case Chat => ChatSpec(s, msg, sv)
  }

  /** `self_improve` and `self_improve_on_error`: count the improvement, then chat with the prompt. */
  function SelfImproveSpec(s: AgentState, prompt: string, sv: Services): Step {
    ChatSpec(s.(selfImprovements := s.selfImprovements + 1), prompt, sv)
  }

  // ---------------------------------------------------------------------
  // What the steps promise
  // ---------------------------------------------------------------------

  /** Collecting two runs of chunks one after the other joins their texts. */
  lemma {:induction false} CollectedAppend(a: seq<Option<string>>, b: seq<Option<string>>)
    ensures Collected(a + b) == Collected(a) + Collected(b)
    decreases |b|
  {
    if b == [] {
      assert a + b == a;
    } else {
      var b' := b[..|b| - 1];
      assert (a + b)[..|a + b| - 1] == a + b';
      CollectedAppend(a, b');
    }
  }

  /** The text of the chunks before one, that chunk's piece, and the text of the chunks after it. */
  lemma CollectedSplit(before: seq<Option<string>>, chunk: Option<string>, after: seq<Option<string>>)
    ensures Collected(before + [chunk] + after) == Collected(before) + Piece(chunk) + Collected(after)
  {
    CollectedAppend(before + [chunk], after);
    assert (before + [chunk])[..|before|] == before;
  }

  /** Each piece of content appears in the streamed text, in the order the chunks came. */
  lemma CollectedPiece(chunks: seq<Option<string>>, i: nat)
    requires i < |chunks|
    ensures Collected(chunks) == Collected(chunks[..i]) + Piece(chunks[i]) + Collected(chunks[i + 1..])
  {
    SplitAt(chunks, i);
    CollectedSplit(chunks[..i], chunks[i], chunks[i + 1..]);
  }

  lemma SplitAt<T>(s: seq<T>, i: nat)
    requires i < |s|
    ensures s == s[..i] + [s[i]] + s[i + 1..]
  {
  }

  /** A malformed chunk, or one with empty content, adds nothing to the streamed text. */
  lemma CollectedSkips(chunks: seq<Option<string>>, i: nat)
    requires i < |chunks| && (chunks[i].None? || chunks[i] == Some(""))
    ensures Collected(chunks) == Collected(chunks[..i] + chunks[i + 1..])
  {
    CollectedPiece(chunks, i);
    CollectedAppend(chunks[..i], chunks[i + 1..]);
  }

  /** Whatever the route, `process` leaves the error and self-improvement counters alone. */
  lemma DispatchKeepsCounters(s: AgentState, intent: Intent, msg: string, sv: Services)
    ensures var t := Dispatch(s, intent, msg, sv).state;
      t.requests == s.requests && t.errors == s.errors && t.selfImprovements == s.selfImprovements
  {
  }

  /** `process` raises the request counter by exactly one and leaves the other two counters alone. */
  lemma ProcessCounts(s: AgentState, msg: string, sv: Services)
    ensures var t := Dispatch(s.(requests := s.requests + 1), Classify(msg), msg, sv).state;
      t.requests == s.requests + 1 && t.errors == s.errors && t.selfImprovements == s.selfImprovements
  {
    DispatchKeepsCounters(s.(requests := s.requests + 1), Classify(msg), msg, sv);
  }

  /** Only the chat route touches the transcript; the others keep it as it was. */
  lemma OnlyChatTalks(s: AgentState, intent: Intent, msg: string, sv: Services)
    ensures intent != Chat ==> Dispatch(s, intent, msg, sv).state.history == s.history
    ensures intent == Chat ==> |Dispatch(s, intent, msg, sv).state.history| == |s.history| + 2
  {
  }

  /**
   * The bash and git handlers: a use of `name` is counted exactly when the tool
   * returns, the reply is "" exactly then, and a raising tool changes nothing.
   */
  lemma ToolCounts(s: AgentState, name: string, outcome: ToolOutcome)
    ensures var t := ToolSpec(s, name, outcome);
      && t.state.(toolsUsed := s.toolsUsed) == s
      && (t.reply == "" <==> outcome.Returned?)
      && (outcome.Raised? ==> t.state == s && t.reply == ErrorPrefix + outcome.message)
      && (outcome.Returned? ==>
            && t.state.toolsUsed.Keys == s.toolsUsed.Keys + {name}
            && t.state.toolsUsed[name] == (if name in s.toolsUsed then s.toolsUsed[name] else 0) + 1
            && forall n :: n in s.toolsUsed && n != name ==> t.state.toolsUsed[n] == s.toolsUsed[n])
  {
    if outcome.Raised? {
      assert |ErrorPrefix + outcome.message| > 0;
    }
  }

  /**
   * The file handlers pass keys `execute` does not read, so the file tool always
   * answers with the missing-parameters error: the use is counted, the
   * filesystem stays as it was, and the listing summary is asked about that error.
   */
  lemma FileHandlersRefused(s: AgentState, path: string, sv: Services)
    ensures FileReadSpec(s, path) == Step(s.(toolsUsed := Counted(s.toolsUsed, "file")), "")
    ensures FileListSpec(s, sv) ==
      Step(s.(toolsUsed := Counted(s.toolsUsed, "file")), ChatWithContext(sv.complete, FileListPrompt(MissingParameters)))
  {
    AgentKeysRefused(s.fs, path);
  }

  /**
   * `_chat` appends the user turn and then the assistant turn, keeps the
   * transcript paired, changes nothing else and answers "", whatever the stream did.
   */
  lemma ChatAddsPair(s: AgentState, message: string, sv: Services)
    ensures var t := ChatSpec(s, message, sv);
      && t.reply == ""
      && t.state.(history := s.history) == s
      && |t.state.history| == |s.history| + 2
      && t.state.history[..|s.history|] == s.history
      && t.state.history[|s.history|] == Turn(User, message)
      && t.state.history[|s.history| + 1].role == Assistant
      && (Paired(s.history) ==> Paired(t.state.history))
  {
    var t := ChatSpec(s, message, sv);
    var answer := StreamText(sv.stream(StreamTurns(s.history + [Turn(User, message)])));
    assert t.state.history == s.history + [Turn(User, message)] + [Turn(Assistant, answer)];
    if Paired(s.history) {
      PairedGrows(s.history, message, answer);
    }
  }

  /** `self_improve` and `self_improve_on_error` count one improvement and add one exchange. */
  lemma SelfImproveCounts(s: AgentState, prompt: string, sv: Services)
    ensures var t := SelfImproveSpec(s, prompt, sv);
      && t.reply == ""
      && t.state.selfImprovements == s.selfImprovements + 1
      && t.state.requests == s.requests && t.state.errors == s.errors
      && t.state.toolsUsed == s.toolsUsed && t.state.fs == s.fs
      && |t.state.history| == |s.history| + 2
      && t.state.history[|s.history|] == Turn(User, prompt)
  {
    ChatAddsPair(s.(selfImprovements := s.selfImprovements + 1), prompt, sv);
  }

  // ---------------------------------------------------------------------
  // The agent as an object
  // ---------------------------------------------------------------------

  class SimpleAgent {
    var requests: nat
    var errors: nat
    var selfImprovements: nat
    var toolsUsed: map<string, nat>
    var history: seq<Turn>
    const fileTool: FileTool

    ghost predicate Valid()
      reads this, fileTool
    {
      && fileTool.Valid()
      && Paired(history)
      && toolsUsed.Keys <= {"file", "bash", "git"}
    }

    ghost function State(): AgentState
      reads this, fileTool
    {
      AgentState(requests, errors, selfImprovements, toolsUsed, history, fileTool.fs)
    }

    constructor (fs: FileSystem)
      requires WellFormed(fs)
      ensures Valid()
      ensures State() == AgentState(0, 0, 0, map[], [], fs)
    {
      requests := 0;
      errors := 0;
      selfImprovements := 0;
      toolsUsed := map[];
      history := [];
      fileTool := new FileTool(fs);
    }

    /** `process`. */
    method Process(msg: string, sv: Services) returns (r: string)
      requires Valid()
      modifies this, fileTool
      ensures Valid()
      ensures Step(State(), r) == Dispatch(old(State()).(requests := old(requests) + 1), Classify(msg), msg, sv)
    {
      var intent := Classify(msg);
      r := CountAndRoute(intent, msg, sv);
    }

    /** The request counter goes up before the message is routed. */
    method CountAndRoute(intent: Intent, msg: string, sv: Services) returns (r: string)
      requires Valid()
      modifies this, fileTool
      ensures Valid()
      ensures Step(State(), r) == Dispatch(old(State()).(requests := old(requests) + 1), intent, msg, sv)
    {
      ghost var counted := State().(requests := requests + 1);
      requests := requests + 1;
      r := Route(intent, msg, sv, counted);
    }

    /**
     * The if/elif chain of `process`: the handler for the message's intent. The
     * ghost `s` only names the state on entry, so that the proof can compare the
     * new state with it; it changes nothing the method does.
     */
    method Route(intent: Intent, msg: string, sv: Services, ghost s: AgentState) returns (r: string)
      requires Valid() && State() == s
      modifies this, fileTool
      ensures Valid()
      ensures Step(State(), r) == Dispatch(s, intent, msg, sv)
    {
      match intent {
        case FileList =>
          r := HandleFileList(sv);
        case ShellRun(command) =>
          r := HandleTool("bash", sv.bash(command));
        case VcsRun(subcommand) =>
          r := HandleTool("git", sv.git(subcommand));
        case FileRead(path) =>
          r := HandleFileRead(path);
        case Chat =>
          r := Chat(msg, sv);
      }
    }

    /** `_handle_file_list`. */
    method HandleFileList(sv: Services) returns (r: string)
      requires Valid()
      modifies this, fileTool
      ensures Valid()
      ensures Step(State(), r) == FileListSpec(old(State()), sv)
    {
      var listing := fileTool.Execute(ListParams);
      toolsUsed := Counted(toolsUsed, "file");
      r := ChatWithContext(sv.complete, FileListPrompt(listing));
    }

    /** `_handle_file_read`. */
    method HandleFileRead(path: string) returns (r: string)
      requires Valid()
      modifies this, fileTool
      ensures Valid()
      ensures Step(State(), r) == FileReadSpec(old(State()), path)
    {
      var shown := fileTool.Execute(ReadParams(path));
      toolsUsed := Counted(toolsUsed, "file");
      r := "";
    }

    /** `_handle_bash` (`name` "bash") and `_handle_git` (`name` "git"), given what the tool did. */
    method HandleTool(name: string, outcome: ToolOutcome) returns (r: string)
      requires Valid() && name in {"bash", "git"}
      modifies this
      ensures Valid()
      ensures Step(State(), r) == ToolSpec(old(State()), name, outcome)
    {
      match outcome
      case Returned(_) =>
        toolsUsed := Counted(toolsUsed, name);
        r := "";
      case Raised(message) =>
        r := ErrorPrefix + message;
    }

    /** `_chat`: the user turn, the model's answer to the whole transcript, the assistant turn. */
    method Chat(message: string, sv: Services) returns (r: string)
      requires Valid()
      modifies this
      ensures Valid()
      ensures Step(State(), r) == ChatSpec(old(State()), message, sv)
    {
      ghost var before := history;
      history := history + [Turn(User, message)];
      var answer := CallModelStreaming(sv);
      history := history + [Turn(Assistant, answer)];
      PairedGrows(before, message, answer);
      r := "";
    }

    /** `_call_model_streaming`: gather the pieces chunk by chunk; an exception discards them. */
    method CallModelStreaming(sv: Services) returns (text: string)
      ensures text == StreamText(sv.stream(StreamTurns(history)))
    {
      var outcome := sv.stream(StreamTurns(history));
      var chunks := match outcome case Completed(c) => c case Broken(c, _) => c;
      text := "";
      var i := 0;
      while i < |chunks|
        invariant 0 <= i <= |chunks|
        invariant text == Collected(chunks[..i])
      {
        match chunks[i] {
          case Some(piece) =>
            if piece != "" {
              text := text + piece;
            }
          case None =>
        }
        assert chunks[..i + 1][..i] == chunks[..i];
        i := i + 1;
      }
      assert chunks[..i] == chunks;
      if outcome.Broken? {
        text := ErrorPrefix + outcome.message;
      }
    }

    /** `clear_history`. */
    method ClearHistory()
      requires Valid()
      modifies this
      ensures Valid()
      ensures State() == old(State()).(history := [])
    {
      history := [];
    }

    /** `self_improve`. */
    method SelfImprove(sv: Services) returns (r: string)
      requires Valid()
      modifies this
      ensures Valid()
      ensures Step(State(), r) == SelfImproveSpec(old(State()), SelfImprovePrompt, sv)
    {
      selfImprovements := selfImprovements + 1;
      r := Chat(SelfImprovePrompt, sv);
    }

    /** `self_improve_on_error`. */
    method SelfImproveOnError(err: string, sv: Services) returns (r: string)
      requires Valid()
      modifies this
      ensures Valid()
      ensures Step(State(), r) == SelfImproveSpec(old(State()), SelfImproveOnErrorPrompt(err), sv)
    {
      selfImprovements := selfImprovements + 1;
      r := Chat(SelfImproveOnErrorPrompt(err), sv);
    }
  }
}
