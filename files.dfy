/**
 * The file tool (tools/file_tool.py) over an in-memory filesystem: `execute`
 * checks its two required parameters and dispatches to read, write, append,
 * delete, list or exists; every failure comes back as an "Error: ..." string.
 *
 * The filesystem is a map from a path, split into its parts, to a node; the
 * empty path is the working directory. A well-formed map holds the working
 * directory and, for every entry, its parent directory.
 */
module Files {
  import opened Common
  import opened Text

  type Key = seq<string>
  datatype Node = File(content: string) | Dir
  type FileSystem = map<Key, Node>

  function Parent(k: Key): Key
    requires k != []
  {
    k[..|k| - 1]
  }

  /** `Path(p).parent`, which is the path itself for the working directory. */
  function ParentDir(k: Key): Key {
    if k == [] then [] else Parent(k)
  }

  ghost predicate WellFormed(fs: FileSystem) {
    && [] in fs && fs[[]] == Dir
    && forall k :: k in fs && k != [] ==> Parent(k) in fs && fs[Parent(k)] == Dir
  }

  predicate NotSlash(c: char) { c != '/' }

  /** How `pathlib.Path` reads a path string: its parts between slashes, without empty parts and ".". */
  function Components(path: string): (k: Key)
    ensures forall m :: 0 <= m < |k| ==> k[m] != "" && k[m] != "." && '/' !in k[m]
    ensures '/' !in path && path != "" && path != "." ==> k == [path]
    decreases |path|
  {
    if path == [] then []
    else
      var e := SpanEnd(path, 0, NotSlash);
      var part := path[..e];
      var rest := if e < |path| then Components(path[e + 1..]) else [];
      assert '/' !in path ==> e == |path| && part == path;
      if part == "" || part == "." then rest else [part] + rest
  }

  /** `SpanEnd` is the first position from `j` on where the run stops. */
  lemma SpanEndAt(s: string, j: nat, p: char -> bool, e: nat)
    requires j <= e <= |s|
    requires forall k :: j <= k < e ==> p(s[k])
    requires e == |s| || !p(s[e])
    ensures SpanEnd(s, j, p) == e
  {
  }

  /** The parts of `a/b` are the parts of `a` followed by the parts of `b`. */
  lemma {:induction false} ComponentsJoin(a: string, b: string)
    ensures Components(a + "/" + b) == Components(a) + Components(b)
    decreases |a|
  {
    var s := a + "/" + b;
    var e := SpanEnd(a, 0, NotSlash);
    SpanEndAt(s, 0, NotSlash, e);
    assert s[..e] == a[..e];
    if e == |a| {
      assert s[e + 1..] == b;
      assert a[..e] == a;
    } else {
      assert s[e + 1..] == a[e + 1..] + "/" + b;
      ComponentsJoin(a[e + 1..], b);
    }
  }

  /** A leading "./" names the same path. */
  lemma DotSlashSamePath(p: string)
    ensures Components("./" + p) == Components(p)
  {
    ComponentsJoin(".", p);
    assert "." + "/" + p == "./" + p;
  }

  /** The operating-system errors the operations can raise. */
  datatype OsError = IsADirectory | NotADirectory | FileExists | FileNotFound

  /** `str(e)` of the raised OSError, without the file name Python appends. */
  function ErrorText(e: OsError): string {
    match e
    case IsADirectory => "[Errno 21] Is a directory"
    case NotADirectory => "[Errno 20] Not a directory"
    case FileExists => "[Errno 17] File exists"
    case FileNotFound => "[Errno 2] No such file or directory"
  }

  const MissingParameters: string := "Error: Missing required parameters"

  /** What `execute` returns when an operation raised. */
  function OperationError(e: OsError): string {
    "Error: " + "Error in file operation: " + ErrorText(e)
  }

  // ---------------------------------------------------------------------
  // The read-only operations
  // ---------------------------------------------------------------------

  function NotFoundText(path: string): string { "Error: File does not exist: " + path }

  /**
   * What a text-mode `read()` returns for the stored text: universal newlines
   * turn "\r\n" and a lone "\r" into "\n". Writing in text mode on Linux stores
   * the text as given, so only the read translates.
   */
  function ReadText(c: string): (r: string)
    ensures '\r' !in r
    ensures |r| <= |c|
    decreases |c|
  {
    if c == [] then []
    else if c[0] == '\r' then "\n" + ReadText(if |c| > 1 && c[1] == '\n' then c[2..] else c[1..])
    else [c[0]] + ReadText(c[1..])
  }

  /** Text without a carriage return reads back unchanged. */
  lemma {:induction false} ReadTextKeeps(c: string)
    requires '\r' !in c
    ensures ReadText(c) == c
    decreases |c|
  {
    if c != [] {
      assert '\r' !in c[1..];
      ReadTextKeeps(c[1..]);
      assert c == [c[0]] + c[1..];
    }
  }

  /** A "\r\n" becomes one "\n"; the text before it is kept and the text after it is read on. */
  lemma {:induction false} ReadTextCRLF(a: string, b: string)
    requires '\r' !in a
    ensures ReadText(a + "\r\n" + b) == a + "\n" + ReadText(b)
    decreases |a|
  {
    var c := a + "\r\n" + b;
    if a == [] {
      assert c == "\r\n" + b && c[2..] == b;
    } else {
      assert c[0] == a[0] && c[1..] == a[1..] + "\r\n" + b;
      assert '\r' !in a[1..];
      ReadTextCRLF(a[1..], b);
      assert a + "\n" + ReadText(b) == [a[0]] + (a[1..] + "\n" + ReadText(b));
    }
  }

  /** A lone "\r", not followed by "\n", becomes "\n" as well. */
  lemma {:induction false} ReadTextCR(a: string, b: string)
    requires '\r' !in a && (b == [] || b[0] != '\n')
    ensures ReadText(a + "\r" + b) == a + "\n" + ReadText(b)
    decreases |a|
  {
    var c := a + "\r" + b;
    if a == [] {
      assert c == "\r" + b && c[1..] == b;
    } else {
      assert c[0] == a[0] && c[1..] == a[1..] + "\r" + b;
      assert '\r' !in a[1..];
      ReadTextCR(a[1..], b);
      assert a + "\n" + ReadText(b) == [a[0]] + (a[1..] + "\n" + ReadText(b));
    }
  }

  /** Reading back what was read gives the same text. */
  lemma ReadTextIdempotent(c: string)
    ensures ReadText(ReadText(c)) == ReadText(c)
  {
    ReadTextKeeps(ReadText(c));
  }

  /** The reply of a successful read. */
  function ContentText(path: string, content: string): string {
    "File content of '" + path + "':\n\n" + ReadText(content)
  }

  /** `_read_file`. */
  function ReadFile(fs: FileSystem, path: string): string {
    var k := Components(path);
    if k !in fs then NotFoundText(path)
    else match fs[k]
      case Dir => "Error: Path is not a file: " + path
      case File(content) => ContentText(path, content)
  }

  /** `_check_exists`. */
  function CheckExists(fs: FileSystem, path: string): string {
    "Path '" + path + "' exists: " + (if Components(path) in fs then "True" else "False")
  }

  // ---------------------------------------------------------------------
  // The operations that change the filesystem, as functions of its state
  // ---------------------------------------------------------------------

  /** `Path(p).mkdir(parents=True, exist_ok=True)`. */
  function MakeDirs(fs: FileSystem, p: Key): Result<FileSystem, OsError>
    decreases |p|
  {
    if p in fs then (if fs[p] == Dir then Ok(fs) else Err(FileExists))
    else if p == [] then Err(FileNotFound)
    else if Parent(p) in fs then (if fs[Parent(p)] == Dir then Ok(fs[p := Dir]) else Err(NotADirectory))
    else match MakeDirs(fs, Parent(p))
      case Err(e) => Err(e)
      case Ok(fs1) => Ok(fs1[p := Dir])
  }

  /** `k` lies on the way to `p` (or is `p`). */
  ghost predicate PrefixOf(k: Key, p: Key) {
    |k| <= |p| && p[..|k|] == k
  }

  /** A file sits somewhere on the way to `p`, or at `p` itself. */
  ghost predicate Blocked(fs: FileSystem, p: Key) {
    exists k :: k in fs && fs[k].File? && PrefixOf(k, p)
  }

  /** `_write_file`: create the parent directories, then open for writing (creating or truncating). */
  function Write(fs: FileSystem, k: Key, content: string): Result<FileSystem, OsError> {
    match MakeDirs(fs, ParentDir(k))
    case Err(e) => Err(e)
    case Ok(fs1) => if k in fs1 && fs1[k] == Dir then Err(IsADirectory) else Ok(fs1[k := File(content)])
  }

  /** The error `open` reports when the directory `d` that should hold a new file is missing. */
  function MissingDirError(fs: FileSystem, d: Key): OsError
    decreases |d|
  {
    if d == [] then FileNotFound
    else if Parent(d) !in fs then MissingDirError(fs, Parent(d))
    else if fs[Parent(d)] == Dir then FileNotFound
    else NotADirectory
  }

  /** `_append_file`: open for appending, which creates a missing file but no directory. */
  function Append(fs: FileSystem, k: Key, content: string): Result<FileSystem, OsError> {
    if k in fs then
      match fs[k]
      case Dir => Err(IsADirectory)
      case File(before) => Ok(fs[k := File(before + content)])
    else if k == [] then Err(FileNotFound)
    else if Parent(k) !in fs then Err(MissingDirError(fs, Parent(k)))
    else if fs[Parent(k)] == Dir then Ok(fs[k := File(content)])
    else Err(NotADirectory)
  }

  /** `Path.unlink()` on an existing path; on a directory it raises. */
  function Unlink(fs: FileSystem, k: Key): Result<FileSystem, OsError>
    requires k in fs
  {
    if fs[k] == Dir then Err(IsADirectory) else Ok(fs - {k})
  }

  // ---------------------------------------------------------------------
  // Directory listings in name order
  // ---------------------------------------------------------------------

  /** Python's `<` on strings: code points compared from the left, a proper prefix first. */
  predicate StrLt(a: string, b: string)
    decreases |a|
  {
    if |a| == 0 then |b| > 0
    else if |b| == 0 then false
    else if a[0] != b[0] then a[0] < b[0]
    else StrLt(a[1..], b[1..])
  }

  lemma {:induction false} StrLtIrreflexive(a: string)
    ensures !StrLt(a, a)
    decreases |a|
  {
    if |a| > 0 { StrLtIrreflexive(a[1..]); }
  }

  lemma {:induction false} StrLtTotal(a: string, b: string)
    ensures a == b || StrLt(a, b) || StrLt(b, a)
    ensures !(StrLt(a, b) && StrLt(b, a))
    decreases |a|
  {
    if |a| > 0 && |b| > 0 && a[0] == b[0] {
      StrLtTotal(a[1..], b[1..]);
      if a[1..] == b[1..] { assert a == [a[0]] + a[1..] && b == [b[0]] + b[1..]; }
    }
  }

  lemma {:induction false} StrLtTransitive(a: string, b: string, c: string)
    requires StrLt(a, b) && StrLt(b, c)
    ensures StrLt(a, c)
    decreases |a|
  {
    if |a| > 0 && |b| > 0 && |c| > 0 && a[0] == b[0] && b[0] == c[0] {
      StrLtTransitive(a[1..], b[1..], c[1..]);
    }
  }

  /** `m` is the smallest name of `s`. */
  predicate IsLeast(m: string, s: set<string>) {
    m in s && forall y :: y in s && y != m ==> StrLt(m, y)
  }

  lemma {:induction false} LeastExists(s: set<string>)
    requires s != {}
    ensures exists m :: IsLeast(m, s)
    decreases |s|
  {
    var x :| x in s;
    if s == {x} {
      assert IsLeast(x, s);
    } else {
      LeastExists(s - {x});
      var m :| IsLeast(m, s - {x});
      StrLtTotal(m, x);
      if StrLt(m, x) {
        assert IsLeast(m, s);
      } else {
        forall y | y in s && y != x ensures StrLt(x, y) {
          if y != m { StrLtTransitive(x, m, y); }
        }
        assert IsLeast(x, s);
      }
    }
  }

  lemma LeastUnique(m: string, m': string, s: set<string>)
    requires IsLeast(m, s) && IsLeast(m', s)
    ensures m == m'
  {
    if m != m' { StrLtTotal(m, m'); }
  }

  ghost predicate StrictlySorted(names: seq<string>) {
    forall i, j :: 0 <= i < j < |names| ==> StrLt(names[i], names[j])
  }

  /** `sorted(...)` of a set of names: the same names, each once, in increasing order. */
  ghost function SortedNames(s: set<string>): (r: seq<string>)
    ensures |r| == |s|
    ensures forall i :: 0 <= i < |r| ==> r[i] in s
    ensures forall x :: x in s ==> x in r
    ensures StrictlySorted(r)
    decreases |s|
  {
    if s == {} then []
    else
      LeastExists(s);
      var m :| IsLeast(m, s);
      var rest := SortedNames(s - {m});
      LeastThenSorted(m, s, rest);
      [m] + rest
  }

  /** The least name followed by the sorted others is sorted and holds the same names. */
  lemma LeastThenSorted(m: string, s: set<string>, rest: seq<string>)
    requires IsLeast(m, s) && StrictlySorted(rest)
    requires forall i :: 0 <= i < |rest| ==> rest[i] in s - {m}
    requires forall x :: x in s - {m} ==> x in rest
    ensures StrictlySorted([m] + rest)
    ensures forall i :: 0 <= i < |[m] + rest| ==> ([m] + rest)[i] in s
    ensures forall x :: x in s ==> x in [m] + rest
  {
    var r := [m] + rest;
    forall i, j | 0 <= i < j < |r| ensures StrLt(r[i], r[j]) {
      assert r[j] == rest[j - 1];
      if i > 0 { assert r[i] == rest[i - 1]; }
    }
    forall x | x in s ensures x in r {
      if x != m { assert x in rest; }
    }
  }

  lemma SortedNamesHead(s: set<string>, m: string)
    requires IsLeast(m, s)
    ensures SortedNames(s) == [m] + SortedNames(s - {m})
  {
    var m' :| IsLeast(m', s) && SortedNames(s) == [m'] + SortedNames(s - {m'});
    LeastUnique(m, m', s);
  }

  /** Sorting is the only arrangement of the names in increasing order: two such sequences are equal. */
  lemma {:induction false} SortedUnique(a: seq<string>, b: seq<string>)
    requires StrictlySorted(a) && StrictlySorted(b)
    requires forall x :: x in a <==> x in b
    ensures a == b
    decreases |a|
  {
    assert a != [] ==> a[0] in b;
    assert b != [] ==> b[0] in a;
    if a != [] && b != [] {
      if a[0] != b[0] {
        assert b[0] in a && a[0] in b;
        var i :| 0 <= i < |a| && a[i] == b[0];
        var j :| 0 <= j < |b| && b[j] == a[0];
        assert StrLt(a[0], b[0]) by { assert i > 0; }
        assert StrLt(b[0], a[0]) by { assert j > 0; }
        StrLtTotal(a[0], b[0]);
        assert false;
      }
      assert a == [a[0]] + a[1..] && b == [b[0]] + b[1..];
      forall x ensures x in a[1..] <==> x in b[1..] {
        if x in a[1..] {
          var i :| 0 <= i < |a| - 1 && a[1..][i] == x;
          assert StrLt(a[0], a[i + 1]);
          StrLtIrreflexive(a[0]);
          assert x in b && x != b[0];
        }
        if x in b[1..] {
          var j :| 0 <= j < |b| - 1 && b[1..][j] == x;
          assert StrLt(b[0], b[j + 1]);
          StrLtIrreflexive(b[0]);
          assert x in a && x != a[0];
        }
      }
      SortedUnique(a[1..], b[1..]);
      assert a == [a[0]] + a[1..] && b == [b[0]] + b[1..];
    }
  }

  /** The names directly inside directory `d`. */
  function ChildNames(fs: FileSystem, d: Key): set<string> {
    set k | k in fs && |k| == |d| + 1 && k[..|d|] == d :: k[|d|]
  }

  /** One line of a listing. */
  function EntryLine(isDir: bool, name: string): string {
    "  [" + (if isDir then "DIR" else "FILE") + "] " + name
  }

  /** `item.is_dir()` for the entry `n` of directory `d`. */
  predicate IsDirEntry(fs: FileSystem, d: Key, n: string) {
    d + [n] in fs && fs[d + [n]] == Dir
  }

  ghost function Lines(fs: FileSystem, d: Key, names: seq<string>): seq<string> {
    seq(|names|, i requires 0 <= i < |names| => EntryLine(IsDirEntry(fs, d, names[i]), names[i]))
  }

  /** `_list_directory`. */
  ghost function ListText(fs: FileSystem, path: string): string {
    var d := Components(path);
    if d !in fs then "Error: Directory does not exist: " + path
    else if fs[d].File? then "Error: Path is not a directory: " + path
    else
      var names := SortedNames(ChildNames(fs, d));
      "Contents of '" + path + "':\n" + Join(Lines(fs, d, names), "\n")
  }

  // ---------------------------------------------------------------------
  // `execute`
  // ---------------------------------------------------------------------

  /** `params.get(name)`, where both a missing key and "" fail the `not` test. */
  function Param(params: map<string, string>, name: string): string {
    if name in params then params[name] else ""
  }

  /** What `execute` returns and the filesystem after it. */
  datatype Reply = Reply(text: string, fs: FileSystem)

  function Finish(fs: FileSystem, r: Result<FileSystem, OsError>, success: string): Reply {
    match r
    case Ok(fs') => Reply(success, fs')
    case Err(e) => Reply(OperationError(e), fs)
  }

  function WroteText(path: string, content: string): string {
    "Successfully wrote " + NatToString(|content|) + " bytes to '" + path + "'"
  }

  function AppendedText(path: string, content: string): string {
    "Successfully appended " + NatToString(|content|) + " bytes to '" + path + "'"
  }

  function DeletedText(path: string): string { "Successfully deleted '" + path + "'" }

  /** `execute(params)` as a function of the filesystem before the call. */
  ghost function ExecuteSpec(fs: FileSystem, params: map<string, string>): Reply {
    var operation := Param(params, "operation");
    var path := Param(params, "path");
    var content := Param(params, "content");
    var k := Components(path);
    if operation == "" || path == "" then Reply(MissingParameters, fs)
    else if operation == "read" then Reply(ReadFile(fs, path), fs)
    else if operation == "write" then Finish(fs, Write(fs, k, content), WroteText(path, content))
    else if operation == "append" then Finish(fs, Append(fs, k, content), AppendedText(path, content))
    else if operation == "delete" then
      (if k !in fs then Reply(NotFoundText(path), fs) else Finish(fs, Unlink(fs, k), DeletedText(path)))
    else if operation == "list" then Reply(ListText(fs, path), fs)
    else if operation == "exists" then Reply(CheckExists(fs, path), fs)
    else Reply("Error: Unknown operation '" + operation + "'", fs)
  }

  // ---------------------------------------------------------------------
  // The tool as an object over the filesystem it changes
  // ---------------------------------------------------------------------

  class FileTool {
    var fs: FileSystem

    ghost predicate Valid()
      reads this
    {
      WellFormed(fs)
    }

    constructor (fs0: FileSystem)
      requires WellFormed(fs0)
      ensures Valid() && fs == fs0
    {
      fs := fs0;
    }

    /** `execute`: never raises; the reply and the new filesystem are those of `ExecuteSpec`. */
    method Execute(params: map<string, string>) returns (r: string)
      requires Valid()
      modifies this
      ensures Valid()
      ensures Reply(r, fs) == ExecuteSpec(old(fs), params)
    {
      var operation := Param(params, "operation");
      var path := Param(params, "path");
      var content := Param(params, "content");
      if operation == "" || path == "" {
        return MissingParameters;
      }
      var outcome: Result<string, OsError>;
      if operation == "read" {
        outcome := Ok(ReadFile(fs, path));
      } else if operation == "write" {
        outcome := WriteFile(path, content);
      } else if operation == "append" {
        outcome := AppendFile(path, content);
      } else if operation == "delete" {
        outcome := DeleteFile(path);
      } else if operation == "list" {
        var listing := ListDirectory(path);
        outcome := Ok(listing);
      } else if operation == "exists" {
        outcome := Ok(CheckExists(fs, path));
      } else {
        outcome := Ok("Error: Unknown operation '" + operation + "'");
      }
      r := match outcome case Ok(text) => text case Err(e) => OperationError(e);
    }

    /** `_write_file`: `mkdir` of the parent, then `open(path, 'w')`. */
    method WriteFile(path: string, content: string) returns (out: Result<string, OsError>)
      requires Valid()
      modifies this
      ensures Valid()
      ensures match Write(old(fs), Components(path), content)
        case Ok(fs') => fs == fs' && out == Ok(WroteText(path, content))
        case Err(e) => fs == old(fs) && out == Err(e)
    {
      var k := Components(path);
      var made := MakeDirs(fs, ParentDir(k));
      if made.Err? {
        return Err(made.error);
      }
      MakeDirsGrows(fs, ParentDir(k));
      ghost var before := fs;
      fs := made.value;
      if k in fs && fs[k] == Dir {
        OpenDirKeepsTree(before, k);
        return Err(IsADirectory);
      }
      fs := fs[k := File(content)];
      WriteKeepsWellFormed(before, k, content);
      return Ok(WroteText(path, content));
    }

    /** `_append_file`: `open(path, 'a')`. */
    method AppendFile(path: string, content: string) returns (out: Result<string, OsError>)
      requires Valid()
      modifies this
      ensures Valid()
      ensures match Append(old(fs), Components(path), content)
        case Ok(fs') => fs == fs' && out == Ok(AppendedText(path, content))
        case Err(e) => fs == old(fs) && out == Err(e)
    {
      var k := Components(path);
      var r := Append(fs, k, content);
      if r.Err? {
        return Err(r.error);
      }
      AppendKeepsWellFormed(fs, k, content);
      fs := r.value;
      return Ok(AppendedText(path, content));
    }

    /** `_delete_file`: an existence check, then `unlink`. */
    method DeleteFile(path: string) returns (out: Result<string, OsError>)
      requires Valid()
      modifies this
      ensures Valid()
      ensures Components(path) !in old(fs) ==> fs == old(fs) && out == Ok(NotFoundText(path))
      ensures Components(path) in old(fs) ==> match Unlink(old(fs), Components(path))
        case Ok(fs') => fs == fs' && out == Ok(DeletedText(path))
        case Err(e) => fs == old(fs) && out == Err(e)
    {
      var k := Components(path);
      if k !in fs {
        return Ok(NotFoundText(path));
      }
      var r := Unlink(fs, k);
      if r.Err? {
        return Err(r.error);
      }
      UnlinkKeepsWellFormed(fs, k);
      fs := r.value;
      return Ok(DeletedText(path));
    }

    /** `_list_directory`: one line per entry, visited in increasing name order. */
    method ListDirectory(path: string) returns (r: string)
      requires Valid()
      ensures r == ListText(fs, path)
    {
      var d := Components(path);
      if d !in fs {
        return "Error: Directory does not exist: " + path;
      }
      if fs[d].File? {
        return "Error: Path is not a directory: " + path;
      }
      var remaining := ChildNames(fs, d);
      ghost var all := remaining;
      ghost var names: seq<string> := [];
      var items: seq<string> := [];
      while remaining != {}
        invariant names + SortedNames(remaining) == SortedNames(all)
        invariant items == Lines(fs, d, names)
        decreases |remaining|
      {
        LeastExists(remaining);
        var m :| IsLeast(m, remaining);
        SortedStep(names, remaining, all, m);
        LinesSnoc(fs, d, names, m);
        items := items + [EntryLine(IsDirEntry(fs, d, m), m)];
        names := names + [m];
        remaining := remaining - {m};
      }
      assert names == SortedNames(all) by { assert SortedNames(remaining) == []; }
      r := "Contents of '" + path + "':\n" + Join(items, "\n");
    }
  }

  // ---------------------------------------------------------------------
  // Lemmas the methods rest on
  // ---------------------------------------------------------------------

  /** A successful `mkdir -p` keeps every entry, adds only directories on the way to `p`, and stays well formed. */
  lemma {:induction false} MakeDirsGrows(fs: FileSystem, p: Key)
    requires WellFormed(fs) && MakeDirs(fs, p).Ok?
    ensures var fs' := MakeDirs(fs, p).value;
      && WellFormed(fs')
      && p in fs' && fs'[p] == Dir
      && (forall k :: k in fs ==> k in fs' && fs'[k] == fs[k])
      && (forall k :: k in fs' && k !in fs ==> fs'[k] == Dir && PrefixOf(k, p))
    decreases |p|
  {
    if p !in fs && Parent(p) !in fs {
      MakeDirsGrows(fs, Parent(p));
    }
  }

  /** When `open` finds a directory at `k`, the parent directories already existed: nothing was created. */
  lemma OpenDirKeepsTree(fs: FileSystem, k: Key)
    requires WellFormed(fs) && MakeDirs(fs, ParentDir(k)).Ok?
    requires var fs1 := MakeDirs(fs, ParentDir(k)).value; k in fs1 && fs1[k] == Dir
    ensures MakeDirs(fs, ParentDir(k)).value == fs
  {
    MakeDirsGrows(fs, ParentDir(k));
    var fs1 := MakeDirs(fs, ParentDir(k)).value;
    assert k in fs;
  }

  /** Taking the least remaining name keeps the names visited so far a prefix of the sorted listing. */
  lemma SortedStep(names: seq<string>, remaining: set<string>, all: set<string>, m: string)
    requires names + SortedNames(remaining) == SortedNames(all)
    requires IsLeast(m, remaining)
    ensures (names + [m]) + SortedNames(remaining - {m}) == SortedNames(all)
  {
    SortedNamesHead(remaining, m);
    assert names + [m] + SortedNames(remaining - {m}) == names + ([m] + SortedNames(remaining - {m}));
  }

  lemma LinesSnoc(fs: FileSystem, d: Key, names: seq<string>, m: string)
    ensures Lines(fs, d, names + [m]) == Lines(fs, d, names) + [EntryLine(IsDirEntry(fs, d, m), m)]
  {
  }

  lemma WriteKeepsWellFormed(fs: FileSystem, k: Key, content: string)
    requires WellFormed(fs) && Write(fs, k, content).Ok?
    ensures WellFormed(Write(fs, k, content).value)
  {
    MakeDirsGrows(fs, ParentDir(k));
  }

  lemma AppendKeepsWellFormed(fs: FileSystem, k: Key, content: string)
    requires WellFormed(fs) && Append(fs, k, content).Ok?
    ensures WellFormed(Append(fs, k, content).value)
  {
  }

  lemma UnlinkKeepsWellFormed(fs: FileSystem, k: Key)
    requires WellFormed(fs) && k in fs && Unlink(fs, k).Ok?
    ensures WellFormed(Unlink(fs, k).value)
  {
    var fs' := fs - {k};
    forall q | q in fs' && q != [] ensures Parent(q) in fs' && fs'[Parent(q)] == Dir {
      assert Parent(q) in fs && fs[Parent(q)] == Dir;
    }
  }

  // ---------------------------------------------------------------------
  // Properties of the operations
  // ---------------------------------------------------------------------

  /** In a well-formed tree every directory above an entry exists and is a directory. */
  lemma {:induction false} AncestorsAreDirs(fs: FileSystem, p: Key, q: Key)
    requires WellFormed(fs) && p in fs
    requires PrefixOf(q, p) && q != p
    ensures q in fs && fs[q] == Dir
    decreases |p|
  {
    assert p != [];
    if q != Parent(p) {
      assert PrefixOf(q, Parent(p));
      AncestorsAreDirs(fs, Parent(p), q);
    }
  }

  /** `mkdir -p` succeeds exactly when no file stands on the way to the directory or at it. */
  lemma {:induction false} MakeDirsOkIffUnblocked(fs: FileSystem, p: Key)
    requires WellFormed(fs)
    ensures MakeDirs(fs, p).Ok? <==> !Blocked(fs, p)
    decreases |p|
  {
    if p in fs {
      if fs[p] == Dir {
        forall q | q in fs && PrefixOf(q, p) ensures fs[q] == Dir {
          if q != p { AncestorsAreDirs(fs, p, q); }
        }
      } else {
        assert PrefixOf(p, p);
      }
    } else if Parent(p) in fs {
      if fs[Parent(p)] == Dir {
        forall q | q in fs && PrefixOf(q, p) ensures fs[q] == Dir {
          assert q != p;
          assert PrefixOf(q, Parent(p));
          if q != Parent(p) { AncestorsAreDirs(fs, Parent(p), q); }
        }
      } else {
        assert PrefixOf(Parent(p), p);
      }
    } else {
      MakeDirsOkIffUnblocked(fs, Parent(p));
      forall q | q in fs && PrefixOf(q, p) ensures PrefixOf(q, Parent(p)) {
        assert q != p;
      }
      forall q | PrefixOf(q, Parent(p)) ensures PrefixOf(q, p) { }
    }
  }

  /** Writing fails exactly when a file blocks the parent directories or the target is a directory. */
  lemma WriteOkIff(fs: FileSystem, k: Key, content: string)
    requires WellFormed(fs)
    ensures Write(fs, k, content).Ok? <==> !Blocked(fs, ParentDir(k)) && !(k in fs && fs[k] == Dir)
  {
    MakeDirsOkIffUnblocked(fs, ParentDir(k));
    if MakeDirs(fs, ParentDir(k)).Ok? {
      MakeDirsGrows(fs, ParentDir(k));
    }
  }

  /** A successful write puts the new content at the path, keeps every other entry, and adds only parent directories. */
  lemma WriteFrame(fs: FileSystem, k: Key, content: string)
    requires WellFormed(fs) && Write(fs, k, content).Ok?
    ensures var fs' := Write(fs, k, content).value;
      && k in fs' && fs'[k] == File(content)
      && (forall q :: q in fs && q != k ==> q in fs' && fs'[q] == fs[q])
      && (forall q :: q in fs' && q !in fs && q != k ==> fs'[q] == Dir && PrefixOf(q, ParentDir(k)))
  {
    MakeDirsGrows(fs, ParentDir(k));
  }

  /** Reading a path after writing to it gives back what was written, with its line endings translated. */
  lemma WriteThenRead(fs: FileSystem, path: string, content: string)
    requires Write(fs, Components(path), content).Ok?
    ensures ReadFile(Write(fs, Components(path), content).value, path) == ContentText(path, content)
    ensures '\r' !in content ==>
      ReadFile(Write(fs, Components(path), content).value, path) == "File content of '" + path + "':\n\n" + content
  {
    if '\r' !in content {
      ReadTextKeeps(content);
    }
  }

  /** Appending extends the file's previous content (none for a new file) and touches no other entry. */
  lemma AppendThenRead(fs: FileSystem, path: string, content: string)
    requires Append(fs, Components(path), content).Ok?
    ensures var k := Components(path);
      var before := if k in fs then fs[k].content else "";
      var fs' := Append(fs, k, content).value;
      && ReadFile(fs', path) == ContentText(path, before + content)
      && (forall q :: q in fs' && q != k ==> q in fs && fs'[q] == fs[q])
      && (forall q :: q in fs && q != k ==> q in fs')
  {
    var k := Components(path);
    if k in fs {
      assert fs[k].File?;
    } else {
      assert "" + content == content;
    }
  }

  /** Appending to an existing file twice is appending the two pieces at once. */
  lemma AppendTwice(fs: FileSystem, k: Key, a: string, b: string)
    requires k in fs && fs[k].File?
    ensures Append(fs, k, a).Ok? && Append(Append(fs, k, a).value, k, b) == Append(fs, k, a + b)
  {
    var c := fs[k].content;
    assert c + a + b == c + (a + b);
    assert fs[k := File(c + a)][k := File(c + a + b)] == fs[k := File(c + (a + b))];
  }

  /** The parameters of one call of `execute`. */
  function Call(operation: string, path: string, content: string): map<string, string> {
    map["operation" := operation, "path" := path, "content" := content]
  }

  /**
   * Through `execute`: a write that reports success is read back with its line
   * endings translated, and verbatim when it holds no carriage return.
   */
  lemma ExecuteWriteThenRead(fs: FileSystem, path: string, content: string)
    requires path != ""
    requires ExecuteSpec(fs, Call("write", path, content)).text == WroteText(path, content)
    ensures var fs' := ExecuteSpec(fs, Call("write", path, content)).fs;
      && ExecuteSpec(fs', Call("read", path, "")).text == ContentText(path, content)
      && ('\r' !in content ==> ExecuteSpec(fs', Call("read", path, "")).text == "File content of '" + path + "':\n\n" + content)
  {
    var k := Components(path);
    ExecuteWriteCall(fs, path, content);
    assert WroteText(path, content)[0] == 'S';
    assert Write(fs, k, content).Ok?;
    WriteThenRead(fs, path, content);
    ExecuteReadCall(Write(fs, k, content).value, path);
  }

  /** The `write` branch of `execute`. */
  lemma ExecuteWriteCall(fs: FileSystem, path: string, content: string)
    requires path != ""
    ensures ExecuteSpec(fs, Call("write", path, content)) ==
      Finish(fs, Write(fs, Components(path), content), WroteText(path, content))
  {
  }

  /** The `read` branch of `execute`. */
  lemma ExecuteReadCall(fs: FileSystem, path: string)
    requires path != ""
    ensures ExecuteSpec(fs, Call("read", path, "")) == Reply(ReadFile(fs, path), fs)
  {
  }

  /** Through `execute`: after a delete that reports success the path no longer exists. */
  lemma ExecuteDeleteThenExists(fs: FileSystem, path: string)
    requires path != ""
    requires ExecuteSpec(fs, Call("delete", path, "")).text == DeletedText(path)
    ensures var fs' := ExecuteSpec(fs, Call("delete", path, "")).fs;
      && ExecuteSpec(fs', Call("exists", path, "")).text == "Path '" + path + "' exists: False"
      && fs' == fs - {Components(path)}
  {
    var k := Components(path);
    ExecuteDeleteCall(fs, path);
    assert NotFoundText(path)[0] == 'E';
    assert DeletedText(path)[0] == 'S';
    assert k in fs && fs[k] != Dir;
    ExecuteExistsCall(fs - {k}, path);
  }

  /** The `delete` branch of `execute`. */
  lemma ExecuteDeleteCall(fs: FileSystem, path: string)
    requires path != ""
    ensures var k := Components(path);
      ExecuteSpec(fs, Call("delete", path, "")) ==
        if k !in fs then Reply(NotFoundText(path), fs) else Finish(fs, Unlink(fs, k), DeletedText(path))
  {
  }

  /** The `exists` branch of `execute`. */
  lemma ExecuteExistsCall(fs: FileSystem, path: string)
    requires path != ""
    ensures ExecuteSpec(fs, Call("exists", path, "")) == Reply(CheckExists(fs, path), fs)
  {
  }

  /** Only write, append and delete change the filesystem; every other call leaves it as it was. */
  lemma ReadOnlyOperations(fs: FileSystem, params: map<string, string>)
    requires Param(params, "operation") !in {"write", "append", "delete"}
    ensures ExecuteSpec(fs, params).fs == fs
  {
  }

  /** A call that ends in an error message leaves the filesystem as it was. */
  lemma ErrorsChangeNothing(fs: FileSystem, params: map<string, string>)
    requires |ExecuteSpec(fs, params).text| >= 5 && ExecuteSpec(fs, params).text[..5] == "Error"
    ensures ExecuteSpec(fs, params).fs == fs
  {
    var operation := Param(params, "operation");
    var path := Param(params, "path");
    var content := Param(params, "content");
    var k := Components(path);
    if operation == "write" {
      assert WroteText(path, content)[0] == 'S';
    } else if operation == "append" {
      assert AppendedText(path, content)[0] == 'S';
    } else if operation == "delete" {
      assert DeletedText(path)[0] == 'S';
    } else {
      ReadOnlyOperations(fs, params);
    }
  }

  /** The keys the agent passes are not the ones `execute` reads, so every such call is refused unchanged. */
  lemma AgentKeysRefused(fs: FileSystem, path: string)
    ensures ExecuteSpec(fs, map["action" := "list", "directory" := "."]) == Reply(MissingParameters, fs)
    ensures ExecuteSpec(fs, map["action" := "read", "file_path" := path]) == Reply(MissingParameters, fs)
  {
  }

  /** The names a listing shows are exactly the entries directly inside the directory. */
  lemma ChildNamesExact(fs: FileSystem, d: Key, n: string)
    ensures n in ChildNames(fs, d) <==> d + [n] in fs
  {
    if n in ChildNames(fs, d) {
      var k :| k in fs && |k| == |d| + 1 && k[..|d|] == d && k[|d|] == n;
      assert k == d + [n];
    }
    if d + [n] in fs {
      var k := d + [n];
      assert k[..|d|] == d && k[|d|] == n;
    }
  }

  /** A listing shows its entries in the one increasing order of their names, whatever order they were found in. */
  lemma ListingOrder(fs: FileSystem, path: string, names: seq<string>)
    requires var d := Components(path); d in fs && fs[d] == Dir
    requires StrictlySorted(names)
    requires forall n :: n in names <==> Components(path) + [n] in fs
    ensures ListText(fs, path)
         == "Contents of '" + path + "':\n" + Join(Lines(fs, Components(path), names), "\n")
  {
    var d := Components(path);
    var sorted := SortedNames(ChildNames(fs, d));
    forall x ensures x in sorted <==> x in names {
      ChildNamesExact(fs, d, x);
    }
    SortedUnique(sorted, names);
  }
}
