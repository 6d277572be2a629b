/**
 * Keyword routing of one user message (core/agent_simple.py): the four
 * `_needs_*` tests, their fixed priority, and the three regex-based
 * argument extractors, written as scanners that follow Python's `re.search`
 * (leftmost match, greedy repetition with backtracking, `.` stops at a
 * newline, `re.IGNORECASE` where the source asks for it).
 */
module Router {
  import opened Common
  import opened Text

  const FileListKeywords: seq<string> :=
    ["файлы", "файлов", "список файлов", "что тут", "покажи файл",
     "files", "list files", "show files", "what files"]
  const BashKeywords: seq<string> := ["запусти", "выполни", "run", "execute", "команду"]
  const GitKeyword: string := "git"
  const FileReadKeywords: seq<string> := ["прочитай", "покажи содержимое", "read", "show content", "cat"]

  /** The trigger words of `_extract_command`, in the order its patterns are tried. */
  const CommandVerbs: seq<string> := ["запусти", "выполни", "run", "execute"]
  const DefaultGitCommand: string := "status"
  const DefaultFilePath: string := "README.md"

  /** The text the keyword tests look at: `user_message.lower().strip()`. */
  function Normalize(msg: string): string {
    Strip(Lower(msg))
  }

  /** A keyword that can be found in the stripped text: non-empty, no whitespace at either end. */
  predicate Trimmed(kw: string) {
    |kw| > 0 && IsStripped(kw)
  }

  /** `any(kw in msg for kw in keywords)`. */
  predicate AnyKeyword(msg: string, keywords: seq<string>)
    ensures AnyKeyword(msg, keywords) <==> exists k :: 0 <= k < |keywords| && Contains(msg, keywords[k])
    decreases |keywords|
  {
    if keywords == [] then false
    else
      assert forall k :: 1 <= k < |keywords| ==> keywords[1..][k - 1] == keywords[k];
      Contains(msg, keywords[0]) || AnyKeyword(msg, keywords[1..])
  }

  predicate NeedsFileList(msg: string) { AnyKeyword(msg, FileListKeywords) }
  predicate NeedsBash(msg: string) { AnyKeyword(msg, BashKeywords) }
  predicate NeedsGit(msg: string) { Contains(msg, GitKeyword) }
  predicate NeedsFileRead(msg: string) { AnyKeyword(msg, FileReadKeywords) }

  /** What `process` decides a message means, with the argument it extracted. */
  datatype Intent = FileList | ShellRun(command: string) | VcsRun(subcommand: string) | FileRead(path: string) | Chat

  /** The if/elif chain of `process`: tests on the normalized text, arguments from the original text. */
  function Classify(msg: string): Intent
  {
    var low := Normalize(msg);
    if NeedsFileList(low) then FileList
    else if NeedsBash(low) then ShellRun(ExtractCommand(msg))
    else if NeedsGit(low) then VcsRun(ExtractGitCommand(msg))
    else if NeedsFileRead(low) then FileRead(ExtractFilePath(msg))
    else Chat
  }

  /** A file-list keyword decides the route, whatever else the message says. */
  lemma FileListWins(msg: string, k: nat)
    requires k < |FileListKeywords| && Contains(Normalize(msg), FileListKeywords[k])
    ensures Classify(msg) == FileList
  {
  }

  /** Without a file-list keyword, a shell keyword wins over `git` and the read keywords. */
  lemma ShellBeforeGit(msg: string, k: nat)
    requires !NeedsFileList(Normalize(msg))
    requires k < |BashKeywords| && Contains(Normalize(msg), BashKeywords[k])
    ensures Classify(msg) == ShellRun(ExtractCommand(msg))
  {
  }

  /** `git` wins over the read keywords. */
  lemma GitBeforeRead(msg: string)
    requires !NeedsFileList(Normalize(msg)) && !NeedsBash(Normalize(msg))
    requires Contains(Normalize(msg), GitKeyword)
    ensures Classify(msg) == VcsRun(ExtractGitCommand(msg))
  {
  }

  /** Without the three earlier keyword groups, a read keyword routes to the file reader ahead of chat. */
  lemma ReadBeforeChat(msg: string, k: nat)
    requires !NeedsFileList(Normalize(msg)) && !NeedsBash(Normalize(msg)) && !NeedsGit(Normalize(msg))
    requires k < |FileReadKeywords| && Contains(Normalize(msg), FileReadKeywords[k])
    ensures Classify(msg) == FileRead(ExtractFilePath(msg))
  {
  }

  /** A message goes to the chat exactly when its normalized text contains none of the keywords. */
  lemma ChatIffNoKeyword(msg: string)
    ensures Classify(msg) == Chat <==>
      && (forall k :: 0 <= k < |FileListKeywords| ==> !Contains(Normalize(msg), FileListKeywords[k]))
      && (forall k :: 0 <= k < |BashKeywords| ==> !Contains(Normalize(msg), BashKeywords[k]))
      && !Contains(Normalize(msg), GitKeyword)
      && (forall k :: 0 <= k < |FileReadKeywords| ==> !Contains(Normalize(msg), FileReadKeywords[k]))
  {
    ChatIffNoTest(msg);
    NoTestIffNoKeyword(Normalize(msg));
  }

  /** The chat branch is the `else` of all four tests. */
  lemma ChatIffNoTest(msg: string)
    ensures Classify(msg) == Chat <==>
      var low := Normalize(msg);
      !NeedsFileList(low) && !NeedsBash(low) && !NeedsGit(low) && !NeedsFileRead(low)
  {
  }

  /** The four tests fail exactly when no keyword of theirs occurs in `low`. */
  lemma NoTestIffNoKeyword(low: string)
    ensures !NeedsFileList(low) && !NeedsBash(low) && !NeedsGit(low) && !NeedsFileRead(low) <==>
      && (forall k :: 0 <= k < |FileListKeywords| ==> !Contains(low, FileListKeywords[k]))
      && (forall k :: 0 <= k < |BashKeywords| ==> !Contains(low, BashKeywords[k]))
      && !Contains(low, GitKeyword)
      && (forall k :: 0 <= k < |FileReadKeywords| ==> !Contains(low, FileReadKeywords[k]))
  {
  }

  /** A keyword that neither starts nor ends with whitespace occurs in `t` exactly when it occurs in `t.strip()`. */
  lemma ContainsIgnoresStrip(t: string, kw: string)
    requires Trimmed(kw)
    ensures Contains(Strip(t), kw) <==> Contains(t, kw)
  {
    var r := Strip(t);
    var a := |t| - |TrimStart(t)|;
    if Contains(t, kw) {
      var j :| 0 <= j && OccursAt(t, kw, j);
      OccurrenceKept(t, r, a, kw, j);
    }
    if Contains(r, kw) {
      var j :| 0 <= j && OccursAt(r, kw, j);
      OccurrenceInside(t, r, a, kw, j);
    }
  }

  lemma OccurrenceKept(t: string, r: string, a: int, kw: string, j: int)
    requires StrippedAt(t, r, a) && Trimmed(kw) && OccursAt(t, kw, j)
    ensures OccursAt(r, kw, j - a) && Contains(r, kw)
  {
    assert t[j] == kw[0] && t[j + |kw| - 1] == kw[|kw| - 1];
    assert a <= j;
    assert j + |kw| <= a + |r|;
    forall m | 0 <= m < |kw| ensures r[j - a + m] == kw[m] {
      assert r[j - a + m] == t[j + m];
    }
    assert r[j - a..j - a + |kw|] == kw;
    assert OccursAt(r, kw, j - a);
  }

  lemma OccurrenceInside(t: string, r: string, a: int, kw: string, j: int)
    requires StrippedAt(t, r, a) && OccursAt(r, kw, j)
    ensures OccursAt(t, kw, a + j) && Contains(t, kw)
  {
    forall m | 0 <= m < |kw| ensures t[a + j + m] == kw[m] {
      assert t[a + j + m] == r[j + m];
    }
    assert t[a + j..a + j + |kw|] == kw;
    assert OccursAt(t, kw, a + j);
  }

  lemma AnyKeywordIgnoresStrip(t: string, keywords: seq<string>)
    requires forall k :: 0 <= k < |keywords| ==> Trimmed(keywords[k])
    ensures AnyKeyword(Strip(t), keywords) == AnyKeyword(t, keywords)
  {
    forall k | 0 <= k < |keywords|
      ensures Contains(Strip(t), keywords[k]) <==> Contains(t, keywords[k])
    {
      ContainsIgnoresStrip(t, keywords[k]);
    }
  }

  lemma KeywordsTrimmed()
    ensures forall k :: 0 <= k < |FileListKeywords| ==> Trimmed(FileListKeywords[k])
    ensures forall k :: 0 <= k < |BashKeywords| ==> Trimmed(BashKeywords[k])
    ensures Trimmed(GitKeyword)
    ensures forall k :: 0 <= k < |FileReadKeywords| ==> Trimmed(FileReadKeywords[k])
  {
  }

  /** So the four tests only see `msg.lower()`: the `strip()` changes no route. */
  lemma KeywordTestsIgnoreStrip(msg: string)
    ensures NeedsFileList(Normalize(msg)) == NeedsFileList(Lower(msg))
    ensures NeedsBash(Normalize(msg)) == NeedsBash(Lower(msg))
    ensures NeedsGit(Normalize(msg)) == NeedsGit(Lower(msg))
    ensures NeedsFileRead(Normalize(msg)) == NeedsFileRead(Lower(msg))
  {
    KeywordsTrimmed();
    AnyKeywordIgnoresStrip(Lower(msg), FileListKeywords);
    AnyKeywordIgnoresStrip(Lower(msg), BashKeywords);
    ContainsIgnoresStrip(Lower(msg), GitKeyword);
    AnyKeywordIgnoresStrip(Lower(msg), FileReadKeywords);
  }

  // ---------------------------------------------------------------------
  // The pattern `<verb>\s+(.+)` searched with re.IGNORECASE
  // ---------------------------------------------------------------------

  predicate NotNewline(c: char) { c != '\n' }

  /** `verb` occurs at `i` when case is ignored (the verbs are written in small letters). */
  ghost predicate VerbAt(s: string, verb: string, i: int) {
    0 <= i && i + |verb| <= |s| && forall k :: 0 <= k < |verb| ==> LowerChar(s[i + k]) == verb[k]
  }

  function VerbAtFrom(s: string, verb: string, i: nat, k: nat): (b: bool)
    requires i + |verb| <= |s| && k <= |verb|
    ensures b <==> forall m :: k <= m < |verb| ==> LowerChar(s[i + m]) == verb[m]
    decreases |verb| - k
  {
    k == |verb| || (LowerChar(s[i + k]) == verb[k] && VerbAtFrom(s, verb, i, k + 1))
  }

  /** Largest `q` with `lo < q <= p` and `s[q]` not a newline, scanning down from `p`. */
  function LastLineChar(s: string, lo: nat, p: int): (r: Option<nat>)
    requires p < |s|
    ensures r.Some? ==> lo < r.value <= p && s[r.value] != '\n'
    ensures forall q :: lo < q <= p && (r.None? || r.value < q) ==> s[q] == '\n'
    decreases p
  {
    if p <= lo then None
    else if s[p] != '\n' then Some(p)
    else LastLineChar(s, lo, p - 1)
  }

  /**
   * Where the group `(.+)` starts when `\s+(.+)` is tried at `j`: `\s+` first takes
   * the whole run of whitespace and gives characters back until `.` can match,
   * so the start is the LARGEST suitable position.
   */
  function GroupStart(s: string, j: nat): (r: Option<nat>)
    requires j <= |s|
    ensures r.Some? ==> j < r.value < |s| && AllSpace(s, j, r.value) && s[r.value] != '\n'
    ensures forall q :: j < q < |s| && AllSpace(s, j, q) && (r.None? || r.value < q) ==> s[q] == '\n'
  {
    var e := SpanEnd(s, j, IsSpace);
    if |s| == 0 then None
    else
      var r := LastLineChar(s, j, if e < |s| then e else |s| - 1);
      forall q | j < q < |s| && AllSpace(s, j, q)
        ensures q <= (if e < |s| then e else |s| - 1)
      {
      }
      r
  }

  /** The pattern `verb\s+(.+)` matches at `i`. */
  ghost predicate MatchAt(s: string, verb: string, i: int) {
    VerbAt(s, verb, i) && GroupStart(s, i + |verb|).Some?
  }

  /** The text captured by `(.+)` in the match at `i`: the rest of that line. */
  function GroupAt(s: string, verb: string, i: int): (g: string)
    requires MatchAt(s, verb, i)
    ensures |g| > 0 && forall k :: 0 <= k < |g| ==> g[k] != '\n'
    ensures LineFrom(s, g, GroupStart(s, i + |verb|).value)
  {
    var p := GroupStart(s, i + |verb|).value;
    var e := SpanEnd(s, p, NotNewline);
    RestOfLine(s, p, e);
    s[p..e]
  }

  /** `g` is what `.+` takes from `p` on: it occurs at `p` and runs to the next newline or the end. */
  ghost predicate LineFrom(s: string, g: string, p: int) {
    OccursAt(s, g, p) && (p + |g| == |s| || s[p + |g|] == '\n')
  }

  /** The characters from `p` up to the next newline (or the end) are a non-empty line part that occurs at `p`. */
  lemma RestOfLine(s: string, p: nat, e: nat)
    requires p < e <= |s|
    requires forall k :: p <= k < e ==> NotNewline(s[k])
    requires e == |s| || !NotNewline(s[e])
    ensures var g := s[p..e];
      && |g| > 0 && (forall k :: 0 <= k < |g| ==> g[k] != '\n')
      && LineFrom(s, g, p)
  {
  }

  ghost predicate NoMatch(s: string, verb: string) {
    forall i :: 0 <= i <= |s| ==> !MatchAt(s, verb, i)
  }

  /** `i` is where `re.search` finds the pattern: it matches there and nowhere earlier. */
  ghost predicate LeftmostMatch(s: string, verb: string, i: int) {
    MatchAt(s, verb, i) && forall j :: 0 <= j < i ==> !MatchAt(s, verb, j)
  }

  /** `re.search(verb + r'\s+(.+)', s, re.IGNORECASE)`: the first position from `i` on where it matches. */
  function FindMatch(s: string, verb: string, i: nat): (r: Option<nat>)
    requires i <= |s|
    ensures r.Some? ==> i <= r.value <= |s| && MatchAt(s, verb, r.value)
    ensures forall j :: i <= j <= |s| && (r.None? || j < r.value) ==> !MatchAt(s, verb, j)
    decreases |s| - i
  {
    var here := i + |verb| <= |s| && VerbAtFrom(s, verb, i, 0) && GroupStart(s, i + |verb|).Some?;
    MatchHere(s, verb, i);
    if here then Some(i)
    else if i == |s| then None
    else FindMatch(s, verb, i + 1)
  }

  /** The test `FindMatch` makes at one position is `MatchAt`. */
  lemma MatchHere(s: string, verb: string, i: nat)
    requires i <= |s|
    ensures (i + |verb| <= |s| && VerbAtFrom(s, verb, i, 0) && GroupStart(s, i + |verb|).Some?) <==> MatchAt(s, verb, i)
  {
  }

  /**
   * The loop of `_extract_command` (and the single search of `_extract_git_command`):
   * the stripped group of the first pattern, in list order, that matches anywhere.
   */
  function SearchVerbs(s: string, verbs: seq<string>): (r: Option<string>)
    ensures r.None? <==> forall k :: 0 <= k < |verbs| ==> NoMatch(s, verbs[k])
    ensures r.Some? ==> IsStripped(r.value) && forall k :: 0 <= k < |r.value| ==> r.value[k] != '\n'
    decreases |verbs|
  {
    if verbs == [] then None
    else match FindMatch(s, verbs[0], 0)
      case Some(i) =>
        StripKeepsNoNewline(GroupAt(s, verbs[0], i));
        Some(Strip(GroupAt(s, verbs[0], i)))
      case None =>
        assert forall k :: 1 <= k < |verbs| ==> verbs[1..][k - 1] == verbs[k];
        SearchVerbs(s, verbs[1..])
  }

  /** The verbs are tried in list order and each search returns its leftmost match. */
  lemma {:induction false} SearchVerbsFirstLeftmost(s: string, verbs: seq<string>, k: nat, i: int)
    requires k < |verbs|
    requires forall k' :: 0 <= k' < k ==> NoMatch(s, verbs[k'])
    requires LeftmostMatch(s, verbs[k], i)
    ensures SearchVerbs(s, verbs) == Some(Strip(GroupAt(s, verbs[k], i)))
    decreases k
  {
    if k == 0 {
      FindMatchLeftmost(s, verbs[0], i);
    } else {
      FindMatchNone(s, verbs[0]);
      assert forall k' :: 0 <= k' < k - 1 ==> verbs[1..][k'] == verbs[k' + 1];
      SearchVerbsFirstLeftmost(s, verbs[1..], k - 1, i);
    }
  }

  /** `re.search` finds the leftmost match. */
  lemma FindMatchLeftmost(s: string, verb: string, i: int)
    requires LeftmostMatch(s, verb, i)
    ensures FindMatch(s, verb, 0) == Some(i)
  {
    var r := FindMatch(s, verb, 0);
    assert r.Some? && r.value <= i;
  }

  /** `re.search` finds nothing when the pattern matches nowhere. */
  lemma FindMatchNone(s: string, verb: string)
    requires NoMatch(s, verb)
    ensures FindMatch(s, verb, 0) == None
  {
  }

  /**
   * `_extract_command`: the stripped rest of the line after the first trigger verb
   * (tried in the order запусти, выполни, run, execute) that is followed by
   * whitespace and at least one more character; otherwise the whole stripped message.
   */
  function ExtractCommand(msg: string): string {
    SearchVerbs(msg, CommandVerbs).GetOr(Strip(msg))
  }

  /** What `_extract_command` returns, in terms of where the patterns match. */
  lemma ExtractCommandSpec(msg: string)
    ensures (forall k :: 0 <= k < |CommandVerbs| ==> NoMatch(msg, CommandVerbs[k])) ==> ExtractCommand(msg) == Strip(msg)
    ensures forall k, i ::
      && 0 <= k < |CommandVerbs|
      && (forall k' :: 0 <= k' < k ==> NoMatch(msg, CommandVerbs[k']))
      && LeftmostMatch(msg, CommandVerbs[k], i)
      ==> ExtractCommand(msg) == Strip(GroupAt(msg, CommandVerbs[k], i))
    ensures IsStripped(ExtractCommand(msg))
  {
    SearchVerbsFirst(msg, CommandVerbs);
  }

  /** `SearchVerbsFirstLeftmost` for every verb and position at once. */
  lemma SearchVerbsFirst(s: string, verbs: seq<string>)
    ensures forall k, i ::
      && 0 <= k < |verbs|
      && (forall k' :: 0 <= k' < k ==> NoMatch(s, verbs[k']))
      && LeftmostMatch(s, verbs[k], i)
      ==> SearchVerbs(s, verbs) == Some(Strip(GroupAt(s, verbs[k], i)))
  {
    forall k, i |
      && 0 <= k < |verbs|
      && (forall k' :: 0 <= k' < k ==> NoMatch(s, verbs[k']))
      && LeftmostMatch(s, verbs[k], i)
      ensures SearchVerbs(s, verbs) == Some(Strip(GroupAt(s, verbs[k], i)))
    {
      SearchVerbsFirstLeftmost(s, verbs, k, i);
    }
  }

  /** `_extract_git_command`: the stripped rest of the line after `git` and whitespace, else "status". */
  function ExtractGitCommand(msg: string): string {
    SearchVerbs(msg, [GitKeyword]).GetOr(DefaultGitCommand)
  }

  /** What `_extract_git_command` returns, in terms of where `git` and whitespace occur. */
  lemma ExtractGitCommandSpec(msg: string)
    ensures NoMatch(msg, GitKeyword) ==> ExtractGitCommand(msg) == DefaultGitCommand
    ensures forall i :: LeftmostMatch(msg, GitKeyword, i) ==> ExtractGitCommand(msg) == Strip(GroupAt(msg, GitKeyword, i))
    ensures var r := ExtractGitCommand(msg); r != DefaultGitCommand ==> forall k :: 0 <= k < |r| ==> r[k] != '\n'
  {
    SearchVerbsFirst(msg, [GitKeyword]);
  }

  lemma StripKeepsNoNewline(g: string)
    requires forall k :: 0 <= k < |g| ==> g[k] != '\n'
    ensures forall k :: 0 <= k < |Strip(g)| ==> Strip(g)[k] != '\n'
  {
    var r := Strip(g);
    var a := |g| - |TrimStart(g)|;
    forall k | 0 <= k < |r| ensures r[k] != '\n' {
      assert r[k] == g[a..a + |r|][k] == g[a + k];
    }
  }

  // ---------------------------------------------------------------------
  // The pattern `['"]?([a-zA-Z0-9_./-]+\.[a-zA-Z]+)['"]?` of `_extract_file_path`
  // ---------------------------------------------------------------------

  predicate IsAsciiLetter(c: char) { 'a' <= c <= 'z' || 'A' <= c <= 'Z' }
  predicate IsPathChar(c: char) {
    IsAsciiLetter(c) || '0' <= c <= '9' || c == '_' || c == '.' || c == '/' || c == '-'
  }
  predicate IsQuote(c: char) { c == '\'' || c == '"' }

  /** A dot that the group can end on: followed by a letter. */
  ghost predicate DotBeforeLetter(s: string, d: int) {
    0 <= d && d + 1 < |s| && s[d] == '.' && IsAsciiLetter(s[d + 1])
  }

  /** Largest `d` with `lo < d <= p` and a dot before a letter at `d`, scanning down from `p`. */
  function LastDot(s: string, lo: nat, p: int): (r: Option<nat>)
    requires p < |s|
    ensures r.Some? ==> lo < r.value <= p && DotBeforeLetter(s, r.value)
    ensures forall d :: lo < d <= p && (r.None? || r.value < d) ==> !DotBeforeLetter(s, d)
    decreases p
  {
    if p <= lo then None
    else if s[p] == '.' && p + 1 < |s| && IsAsciiLetter(s[p + 1]) then Some(p)
    else LastDot(s, lo, p - 1)
  }

  /**
   * The dot of the group started at `j`: `[...]+` takes the whole run of path
   * characters and gives back until `\.[a-zA-Z]` follows, so it is the LAST such
   * dot inside the run (a dot at `j` itself is not possible, `+` needs one character).
   */
  function PathDot(s: string, j: nat): (r: Option<nat>)
    requires j <= |s|
    ensures r.Some? ==> j < r.value && DotBeforeLetter(s, r.value)
    ensures r.Some? ==> forall k :: j <= k <= r.value ==> IsPathChar(s[k])
    ensures forall d :: j < d && DotBeforeLetter(s, d) && (forall k :: j <= k <= d ==> IsPathChar(s[k])) ==>
      r.Some? && d <= r.value
  {
    var e := SpanEnd(s, j, IsPathChar);
    if e == j then None
    else
      var r := LastDot(s, j, e - 1);
      forall d | j < d && DotBeforeLetter(s, d) && (forall k :: j <= k <= d ==> IsPathChar(s[k]))
        ensures d <= e - 1
      {
      }
      r
  }

  /** Where the group starts if the whole pattern matches at `i` (an opening quote is consumed when that works). */
  function GroupStartAt(s: string, i: nat): (r: Option<nat>)
    requires i <= |s|
    ensures r.Some? ==> r.value <= |s| && PathDot(s, r.value).Some?
    ensures r.Some? ==> r.value == i || (r.value == i + 1 && IsQuote(s[i]))
    ensures i < |s| && IsQuote(s[i]) && PathDot(s, i + 1).Some? ==> r == Some(i + 1)
    ensures r.None? <==> PathDot(s, i).None? && !(i < |s| && IsQuote(s[i]) && PathDot(s, i + 1).Some?)
  {
    if i < |s| && IsQuote(s[i]) && PathDot(s, i + 1).Some? then Some(i + 1)
    else if PathDot(s, i).Some? then Some(i)
    else None
  }

  /** `re.search` for the path pattern: the first position from `i` on where it matches. */
  function FindPath(s: string, i: nat): (r: Option<nat>)
    requires i <= |s|
    ensures r.Some? ==> i <= r.value <= |s| && GroupStartAt(s, r.value).Some?
    ensures forall j :: i <= j <= |s| && (r.None? || j < r.value) ==> GroupStartAt(s, j).None?
    decreases |s| - i
  {
    if GroupStartAt(s, i).Some? then Some(i)
    else if i == |s| then None
    else FindPath(s, i + 1)
  }

  /** The shape the group guarantees: path characters only, a dot with something before it, letters after it. */
  ghost predicate PathShaped(p: string) {
    && (forall k :: 0 <= k < |p| ==> IsPathChar(p[k]))
    && exists d :: 1 <= d < |p| - 1 && p[d] == '.' && forall m :: d < m < |p| ==> IsAsciiLetter(p[m])
  }

  /** The text captured by the group when it starts at `j`: up to the chosen dot, then the run of letters after it. */
  function PathGroup(s: string, j: nat): (g: string)
    requires j <= |s| && PathDot(s, j).Some?
    ensures PathShaped(g) && OccursAt(s, g, j)
    ensures var d := PathDot(s, j).value;
      && d + 1 < j + |g|
      && (forall m :: d < m < j + |g| ==> IsAsciiLetter(s[m]))
      && (j + |g| == |s| || !IsAsciiLetter(s[j + |g|]))
  {
    var d := PathDot(s, j).value;
    var f := SpanEnd(s, d + 1, IsAsciiLetter);
    PathGroupShaped(s, j, d, f);
    s[j..f]
  }

  lemma PathGroupShaped(s: string, j: nat, d: nat, f: nat)
    requires j < d && DotBeforeLetter(s, d) && d + 1 < f <= |s|
    requires forall k :: j <= k <= d ==> IsPathChar(s[k])
    requires forall k :: d + 1 <= k < f ==> IsAsciiLetter(s[k])
    ensures PathShaped(s[j..f]) && OccursAt(s, s[j..f], j)
  {
    var g := s[j..f];
    assert forall k :: 0 <= k < |g| ==> g[k] == s[j + k];
    assert g[d - j] == '.';
    assert forall m :: d - j < m < |g| ==> IsAsciiLetter(g[m]);
  }

  /**
   * `_extract_file_path`: the group of the leftmost match of the path pattern,
   * without the optional quotes, or "README.md" when nothing matches.
   */
  function ExtractFilePath(msg: string): string {
    match FindPath(msg, 0)
    case None => DefaultFilePath
    case Some(i) => PathGroup(msg, GroupStartAt(msg, i).value)
  }

  /**
   * What `_extract_file_path` returns: the default when nothing matches, else the
   * group of the leftmost match, a path-shaped part of the message.
   */
  lemma ExtractFilePathSpec(msg: string)
    ensures (forall i :: 0 <= i <= |msg| ==> GroupStartAt(msg, i).None?) ==> ExtractFilePath(msg) == DefaultFilePath
    ensures forall i ::
      && 0 <= i <= |msg| && GroupStartAt(msg, i).Some?
      && (forall j :: 0 <= j < i ==> GroupStartAt(msg, j).None?)
      ==> ExtractFilePath(msg) == PathGroup(msg, GroupStartAt(msg, i).value)
    ensures var r := ExtractFilePath(msg); r == DefaultFilePath || (PathShaped(r) && Contains(msg, r))
  {
    forall i | 0 <= i <= |msg| && GroupStartAt(msg, i).Some? && (forall j :: 0 <= j < i ==> GroupStartAt(msg, j).None?)
      ensures ExtractFilePath(msg) == PathGroup(msg, GroupStartAt(msg, i).value)
    {
      FindPathLeftmost(msg, i);
    }
    match FindPath(msg, 0)
    case None =>
    case Some(i) =>
      var j := GroupStartAt(msg, i).value;
      assert OccursAt(msg, PathGroup(msg, j), j);
  }

  /** `re.search` for the path pattern finds the leftmost match. */
  lemma FindPathLeftmost(s: string, i: nat)
    requires i <= |s| && GroupStartAt(s, i).Some?
    requires forall j :: 0 <= j < i ==> GroupStartAt(s, j).None?
    ensures FindPath(s, 0) == Some(i)
  {
    var r := FindPath(s, 0);
    assert r.Some? && r.value <= i;
  }
}
