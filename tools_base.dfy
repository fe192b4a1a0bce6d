/** The built-in tools every agent gets: running a command and reading, writing
    and listing files, each confined to the working directory unless unsafe
    system access is allowed, and a guard against wiping the root directory
    that applies in every mode. */
module BaseTools {
  import opened Wrappers
  import opened Json
  import opened Text
  import opened LlmBase

  // ------------------------------------------------------------ the machine

  /** A path as `os.path.realpath` resolves it: a drive (empty on POSIX) and
      its normalised components. */
  datatype ResolvedPath = ResolvedPath(drive: string, parts: seq<string>)

  /** `subprocess.run(...)` with captured text output. */
  datatype Completed = Completed(stdout: string, stderr: string)

  /** What the tools reach outside the process, each call answering with a
      value or the text of what it raised, and the `allow_unsafe_system_access`
      setting. */
  datatype Host = Host(
    allowUnsafe: bool,
    cwd: Outcome<string>,
    realpath: string -> Outcome<ResolvedPath>,
    shlexSplit: string -> Outcome<seq<string>>,
    runShell: string -> Outcome<Completed>,
    runArgs: seq<string> -> Outcome<Completed>,
    readFile: string -> Outcome<string>,
    writeFile: (string, string) -> Outcome<()>,
    listDir: string -> Outcome<seq<string>>)

  // ---------------------------------------------------------- path safety

  /** The longest common run of leading components. */
  function CommonPrefix(a: seq<string>, b: seq<string>): (r: seq<string>)
    ensures r <= a && r <= b
  {
    if a == [] || b == [] || a[0] != b[0] then [] else [a[0]] + CommonPrefix(a[1..], b[1..])
  }

  /** `os.path.commonpath([a, b])`: `ValueError` when the drives differ. */
  function CommonPath(a: ResolvedPath, b: ResolvedPath): Outcome<ResolvedPath> {
    if a.drive != b.drive then Raised("Paths don't have the same drive")
    else Returned(ResolvedPath(a.drive, CommonPrefix(a.parts, b.parts)))
  }

  /** The common prefix of `a` and `b` is `a` itself exactly when `a` is a
      prefix of `b`. */
  lemma {:induction false} CommonPrefixIsFirst(a: seq<string>, b: seq<string>)
    ensures CommonPrefix(a, b) == a <==> a <= b
    decreases |a|
  {
    if a != [] && b != [] && a[0] == b[0] {
      CommonPrefixIsFirst(a[1..], b[1..]);
      assert a == [a[0]] + a[1..];
      assert b == [b[0]] + b[1..];
    }
  }

  /** `path` lies inside the working directory: both resolve, on one drive, and
      the directory's components lead the path's. */
  predicate WithinCwd(h: Host, path: string) {
    && h.cwd.Returned?
    && h.realpath(h.cwd.value).Returned?
    && h.realpath(path).Returned?
    && h.realpath(h.cwd.value).value.drive == h.realpath(path).value.drive
    && h.realpath(h.cwd.value).value.parts <= h.realpath(path).value.parts
  }

  /** `_is_safe_path`: anything goes with unsafe access allowed; otherwise the
      common path of directory and target must be the directory, and any
      failure on the way counts as unsafe. */
  function IsSafePath(h: Host, path: string): (r: bool)
    ensures h.allowUnsafe ==> r
    ensures !h.allowUnsafe ==> (r <==> WithinCwd(h, path))
  {
    if h.allowUnsafe then true
    else if h.cwd.Raised? then false
    else match (h.realpath(h.cwd.value), h.realpath(path))
      case (Returned(base), Returned(target)) =>
        CommonPrefixIsFirst(base.parts, target.parts);
        var common := CommonPath(base, target);
        common.Returned? && common.value == base
      case _ => false
  }

  // ---------------------------------------------------- the command guard

  /** `\s+` matching exactly `s[a..b]`. */
  predicate Spaces(s: string, a: int, b: int) {
    0 <= a < b <= |s| && forall k | a <= k < b :: IsSpace(s[k])
  }

  /** The literal `t` at position `a`. */
  predicate At(s: string, a: int, t: string) {
    0 <= a && a + |t| <= |s| && s[a..a + |t|] == t
  }

  predicate CharIn(s: string, a: int, cs: string) {
    0 <= a < |s| && s[a] in cs
  }

  /** `(\s+|$)` at position `a`: the end of the text, or a white-space character
      (the end of a text that has been stripped cannot be a line break). */
  predicate SpacesOrEnd(s: string, a: int) {
    a == |s| || (0 <= a < |s| && IsSpace(s[a]))
  }

  /** `-[rRfF]{2,}|-[rR]\s+-[fF]|-[fF]\s+-[rR]` matching exactly `s[a..b]`. */
  predicate RmFlags(s: string, a: int, b: int) {
    (0 <= a && a + 3 <= b <= |s| && s[a] == '-' && forall k | a < k < b :: s[k] in "rRfF")
    || (At(s, a, "-") && CharIn(s, a + 1, "rR") && Spaces(s, a + 2, b - 2) && At(s, b - 2, "-") && CharIn(s, b - 1, "fF"))
    || (At(s, a, "-") && CharIn(s, a + 1, "fF") && Spaces(s, a + 2, b - 2) && At(s, b - 2, "-") && CharIn(s, b - 1, "rR"))
  }

  /** `(/|/\*)(\s+|$)` from position `a`. */
  predicate RmTarget(s: string, a: int) {
    (At(s, a, "/") && SpacesOrEnd(s, a + 1)) || (At(s, a, "/*") && SpacesOrEnd(s, a + 2))
  }

  /** `(/s\s+/q|/q\s+/s)` matching exactly `s[a..b]`. */
  predicate RdFlags(s: string, a: int, b: int) {
    (At(s, a, "/s") && Spaces(s, a + 2, b - 2) && At(s, b - 2, "/q"))
    || (At(s, a, "/q") && Spaces(s, a + 2, b - 2) && At(s, b - 2, "/s"))
  }

  /** `(c:\\|/)(\s+|$)` from position `a`. */
  predicate RdTarget(s: string, a: int) {
    (At(s, a, @"c:\") && SpacesOrEnd(s, a + 3)) || (At(s, a, "/") && SpacesOrEnd(s, a + 1))
  }

  /** The two dangerous patterns. */
  datatype Pattern = RmRoot | RdRoot {
    /** The pattern's regular-expression text, as the refusal quotes it. */
    function Source(): string {
      match this
      case RmRoot => @"rm\s+(-[rRfF]{2,}|-[rR]\s+-[fF]|-[fF]\s+-[rR])\s+(/|/\*)(\s+|$)"
      case RdRoot => @"rd\s+(/s\s+/q|/q\s+/s)\s+(c:\\|/)(\s+|$)"
    }

    /** A match of the pattern that starts at position `i`. */
    predicate MatchAt(s: string, i: int) {
      match this
      case RmRoot =>
        exists p, q, t | i + 2 < p < q < t <= |s| ::
          At(s, i, "rm") && Spaces(s, i + 2, p) && RmFlags(s, p, q) && Spaces(s, q, t) && RmTarget(s, t)
      case RdRoot =>
        exists p, q, t | i + 2 < p < q < t <= |s| ::
          At(s, i, "rd") && Spaces(s, i + 2, p) && RdFlags(s, p, q) && Spaces(s, q, t) && RdTarget(s, t)
    }

    /** `re.search(pattern, s)` found a match. */
    predicate Search(s: string) {
      exists i | 0 <= i <= |s| :: MatchAt(s, i)
    }
  }

  /** The patterns, in the order they are tried. */
  const DangerousPatterns: seq<Pattern> := [RmRoot, RdRoot]

  /** The text the guard inspects. */
  function Inspected(command: string): string {
    Lower(Strip(command))
  }

  function BlockedMessage(p: Pattern): string {
    "Error: Command blocked by safety guard. usage of dangerous pattern '" + p.Source() + "' is not allowed."
  }

  /** `rm -rf /` is refused wherever it stands, followed by white space or the end. */
  lemma RmRfRootMatches(pre: string, post: string)
    requires post == [] || IsSpace(post[0])
    ensures RmRoot.Search(pre + "rm -rf /" + post)
  {
    var s := pre + "rm -rf /" + post;
    var i := |pre|;
    assert s[i..i + 8] == "rm -rf /";
    assert At(s, i, "rm");
    assert Spaces(s, i + 2, i + 3);
    assert RmFlags(s, i + 3, i + 6);
    assert Spaces(s, i + 6, i + 7);
    assert s[i + 7] == s[i..i + 8][7] == '/';
    assert s[i + 7..i + 8] == [s[i + 7]];
    assert At(s, i + 7, "/");
    assert |s| == i + 8 + |post|;
    if post != [] {
      assert s[i + 8] == post[0];
    }
    assert SpacesOrEnd(s, i + 8);
    assert RmTarget(s, i + 7);
    assert RmRoot.MatchAt(s, i);
  }

  /** `rm -rf /tmp` is not refused: the target must be the root itself. */
  lemma RmRfTmpPasses()
    ensures !RmRoot.Search("rm -rf /tmp")
  {
    var s := "rm -rf /tmp";
    forall t | 0 <= t <= |s|
      ensures !RmTarget(s, t)
    {
      NoRootAt(s, t);
    }
  }

  lemma NoRootAt(s: string, t: int)
    requires s == "rm -rf /tmp"
    ensures !RmTarget(s, t)
  {
    AtHead(s, t, "/");
    AtHead(s, t, "/*");
    if 0 <= t < |s| && s[t] == '/' {
      assert t == 7;
      assert s[t + 1] == 't';
      assert s[t..t + 2][1] == 't';
    }
  }

  /** A literal found at `a` starts with the character at `a`. */
  lemma AtHead(s: string, a: int, t: string)
    requires t != []
    ensures At(s, a, t) ==> s[a] == t[0]
  {
    if At(s, a, t) {
      assert s[a..a + |t|][0] == s[a];
    }
  }

  // ------------------------------------------------------ execute_command

  /** The paths `execute_command` can take. */
  datatype CommandRun =
    | Blocked(pattern: Pattern)
    | ShellRun(result: Outcome<Completed>)
    | SplitFailed(error: string)
    | Denied(arg: string)
    | ArgsRun(args: seq<string>, result: Outcome<Completed>)

  /** Every argument before position `i` is a safe path. */
  predicate SafeBefore(h: Host, args: seq<string>, i: int)
    requires 0 <= i <= |args|
  {
    forall j | 0 <= j < i :: IsSafePath(h, args[j])
  }

  /** The first argument that is not a safe path. */
  function FirstUnsafe(h: Host, args: seq<string>): (r: Option<string>)
    ensures r.None? <==> forall a | a in args :: IsSafePath(h, a)
    ensures r.Some? ==> r.value in args && !IsSafePath(h, r.value)
    ensures r.Some? ==> exists i | 0 <= i < |args| :: args[i] == r.value && SafeBefore(h, args, i)
  {
    if args == [] then None
    else if !IsSafePath(h, args[0]) then Some(args[0])
    else FirstUnsafe(h, args[1..])
  }

  /** The first dangerous pattern found in the command. */
  function FirstMatch(command: string): Option<Pattern> {
    if RmRoot.Search(Inspected(command)) then Some(RmRoot)
    else if RdRoot.Search(Inspected(command)) then Some(RdRoot)
    else None
  }

  /** The path `execute_command` takes for a command on a given host. */
  function Decide(command: string, h: Host): CommandRun {
    match FirstMatch(command)
    case Some(p) => Blocked(p)
    case None =>
      if h.allowUnsafe then ShellRun(h.runShell(command))
      else match h.shlexSplit(command)
        case Raised(e) => SplitFailed(e)
        case Returned(args) =>
          match FirstUnsafe(h, args)
          case Some(a) => Denied(a)
          case None => ArgsRun(args, h.runArgs(args))
  }

  /** stdout, then stderr after `\nError: ` when there is any. */
  function Output(c: Completed): string {
    c.stdout + (if c.stderr != "" then "\nError: " + c.stderr else "")
  }

  function RunOutput(result: Outcome<Completed>): string {
    match result
    case Returned(c) => Output(c)
    case Raised(e) => "Error executing command: " + e
  }

  /** The text the tool returns for a path. */
  function Render(run: CommandRun): string {
    match run
    case Blocked(p) => BlockedMessage(p)
    case ShellRun(result) => RunOutput(result)
    case SplitFailed(e) => "Error executing command: " + e
    case Denied(a) => "Error: Access denied - Path traversal detected in argument '" + a + "'."
    case ArgsRun(_, result) => RunOutput(result)
  }

  /** The guard decides first and the same way in both modes; a command only
      ever runs unguarded through the shell when unsafe access is allowed, and
      in restricted mode only once every token, the program included, has been
      found inside the working directory. */
  lemma DecideGuarantees(command: string, h: Host)
    ensures Decide(command, h).Blocked? <==>
      exists p | p in DangerousPatterns :: p.Search(Inspected(command))
    ensures Decide(command, h).Blocked? ==>
      Decide(command, h) == Decide(command, h.(allowUnsafe := !h.allowUnsafe))
    ensures Decide(command, h).ShellRun? ==> h.allowUnsafe
    ensures Decide(command, h).ArgsRun? ==>
      && !h.allowUnsafe
      && h.shlexSplit(command) == Returned(Decide(command, h).args)
      && forall a | a in Decide(command, h).args :: WithinCwd(h, a)
    ensures Decide(command, h).Denied? ==>
      !h.allowUnsafe && !WithinCwd(h, Decide(command, h).arg)
  {
    if exists p | p in DangerousPatterns :: p.Search(Inspected(command)) {
      var p :| p in DangerousPatterns && p.Search(Inspected(command));
      assert p == RmRoot || p == RdRoot;
    }
  }

  /** The guard loop of `execute_command`. */
  method Guard(command: string) returns (blocked: Option<Pattern>)
    ensures blocked == FirstMatch(command)
  {
    var cmdLower := Lower(Strip(command));
    for i := 0 to |DangerousPatterns|
      invariant 1 <= i ==> !RmRoot.Search(cmdLower)
      invariant 2 <= i ==> !RdRoot.Search(cmdLower)
    {
      var pattern := DangerousPatterns[i];
      if pattern.Search(cmdLower) {
        return Some(pattern);
      }
    }
    return None;
  }

  /** The argument loop of `execute_command`: the first token that is not a
      safe path, if any. */
  method CheckArgs(h: Host, args: seq<string>) returns (bad: Option<string>)
    ensures bad == FirstUnsafe(h, args)
  {
    for i := 0 to |args|
      invariant FirstUnsafe(h, args) == FirstUnsafe(h, args[i..])
    {
      assert args[i..][1..] == args[i + 1..];
      if !IsSafePath(h, args[i]) {
        return Some(args[i]);
      }
    }
    assert args[|args|..] == [];
    return None;
  }

  /** `execute_command`. */
  method ExecuteCommand(command: string, h: Host) returns (out: string)
    ensures out == Render(Decide(command, h))
  {
    var blocked := Guard(command);
    if blocked.Some? {
      return BlockedMessage(blocked.value);
    }
    if h.allowUnsafe {
      var result := h.runShell(command);
      return RunOutput(result);
    }
    var split := h.shlexSplit(command);
    if split.Raised? {
      return "Error executing command: " + split.error;
    }
    var args := split.value;
    var bad := CheckArgs(h, args);
    if bad.Some? {
      return "Error: Access denied - Path traversal detected in argument '" + bad.value + "'.";
    }
    var result := h.runArgs(args);
    out := RunOutput(result);
  }

  // ------------------------------------------------------------ file tools

  const AccessDenied: string := "Error: Access denied - Path traversal detected."

  /** `read_file`. */
  function ReadFile(h: Host, filepath: string): (r: string)
    ensures !IsSafePath(h, filepath) ==> r == AccessDenied
    ensures IsSafePath(h, filepath) && h.readFile(filepath).Returned? ==> r == h.readFile(filepath).value
  {
    if !IsSafePath(h, filepath) then AccessDenied
    else match h.readFile(filepath)
      case Returned(text) => text
      case Raised(e) => "Error reading file: " + e
  }

  /** `write_file`. */
  function WriteFile(h: Host, filepath: string, content: string): (r: string)
    ensures !IsSafePath(h, filepath) ==> r == AccessDenied
  {
    if !IsSafePath(h, filepath) then AccessDenied
    else match h.writeFile(filepath, content)
      case Returned(_) => "File '" + filepath + "' written successfully."
      case Raised(e) => "Error writing file: " + e
  }

  /** `list_files`, whose directory defaults to `.`. */
  function ListFiles(h: Host, directory: string): (r: string)
    ensures !IsSafePath(h, directory) ==> r == AccessDenied
  {
    if !IsSafePath(h, directory) then AccessDenied
    else match h.listDir(directory)
      case Returned(names) => Join("\n", names)
      case Raised(e) => "Error listing files: " + e
  }

  const DefaultDirectory: string := "."

  /** In restricted mode a path outside the working directory never reaches
      the file system: the answer is the refusal whatever the file system holds. */
  lemma FileToolsConfined(h: Host, path: string, content: string)
    requires !h.allowUnsafe && !WithinCwd(h, path)
    ensures ReadFile(h, path) == AccessDenied
    ensures WriteFile(h, path, content) == AccessDenied
    ensures ListFiles(h, path) == AccessDenied
  {
  }

  // --------------------------------------------------------------- schemas

  function Prop(kind: string, description: string): Json {
    Object(map["type" := Str(kind), "description" := Str(description)])
  }

  function Schema(name: string, description: string, properties: map<string, Json>, required: seq<string>): ToolDef {
    ToolDef(Some("function"), Some(FunctionSpec(Some(name), Some(description), Some(Object(map[
      "type" := Str("object"),
      "properties" := Object(properties),
      "required" := Array(seq(|required|, k requires 0 <= k < |required| => Str(required[k])))])))))
  }

  const ExecuteCommandSchema: ToolDef := Schema(
    "execute_command",
    "Executes a single shell command. Pipes, redirects, and shell operators (&&, ;, |) NOT supported.",
    map["command" := Prop("string", "The command to execute.")],
    ["command"])

  const ReadFileSchema: ToolDef := Schema(
    "read_file",
    "Reads a file from the filesystem.",
    map["filepath" := Prop("string", "The path to the file.")],
    ["filepath"])

  const WriteFileSchema: ToolDef := Schema(
    "write_file",
    "Writes content to a file.",
    map["filepath" := Prop("string", "The path to the file."), "content" := Prop("string", "The content to write.")],
    ["filepath", "content"])

  const ListFilesSchema: ToolDef := Schema(
    "list_files",
    "Lists files in a directory.",
    map["directory" := Prop("string", "The directory path (default: .).")],
    [])
}
