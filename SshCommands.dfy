/** The pure part of the remote filesystem client
    (Infrastructure/Clients/SshFileSystemClient.cs): the shell command
    strings it builds, how it reads an existence probe, how it turns the
    output of `find` into path lists and into a directory-to-files
    dictionary, and which commands `Move` and its parent-directory step
    issue for a given behaviour of the remote host. */
module SshCommands {
  import opened Common
  import opened Text

  /** What one remote command produces: its standard output and its
      standard error. */
  datatype Reply = Reply(output: string, error: string)

  /** The behaviour of the remote host: the reply each command text gets. */
  type Script = string -> Reply

  const ExistsSentinel: string := "EXISTS"

  // ---------------------------------------------------------------------
  // Command strings

  /** `[ -d "p" ] && echo "EXISTS" || echo "NOT_EXISTS"` (or `-f`). */
  function ProbeCommand(path: string, descriptor: char): string {
    "[ -" + [descriptor] + " \"" + path + "\" ] && echo \"EXISTS\" || echo \"NOT_EXISTS\""
  }

  function FindFilesCommand(basePath: string): string {
    "find \"" + basePath + "\" -type f"
  }

  function FindDirectoriesCommand(basePath: string): string {
    "find \"" + basePath + "\" -type d"
  }

  function FindTopLevelFilesCommand(basePath: string): string {
    "find \"" + basePath + "\" -type f -maxdepth 1"
  }

  function MoveCommand(source: string, destination: string): string {
    "mv -T \"" + source + "\" \"" + destination + "\""
  }

  function RemoveDirectoryCommand(path: string): string {
    "rm -rf \"" + path + "\""
  }

  function RemoveFileCommand(path: string): string {
    "rm -f \"" + path + "\""
  }

  function MakeParentCommand(path: string): string {
    "umask 002 && mkdir -p \"" + path + "\" && umask 022"
  }

  // ---------------------------------------------------------------------
  // Existence probes and command errors

  /** `DoesPathExist`'s reading of the probe's output. */
  predicate ProbeSaysExists(output: string) {
    Trim(output) == ExistsSentinel
  }

  /** A probe reports existence exactly when its output is the sentinel
      surrounded by nothing but white space; anything else, the negative
      answer and garbage included, reads as "does not exist". */
  lemma ProbeSaysExistsExactly(output: string)
    ensures ProbeSaysExists(output) <==>
      exists a, b :: output == a + ExistsSentinel + b && AllWhiteSpace(a) && AllWhiteSpace(b)
  {
    if ProbeSaysExists(output) {
      TrimDecomposes(output);
    }
    if exists a, b :: output == a + ExistsSentinel + b && AllWhiteSpace(a) && AllWhiteSpace(b) {
      var a, b :| output == a + ExistsSentinel + b && AllWhiteSpace(a) && AllWhiteSpace(b);
      TrimPadded(a, ExistsSentinel, b);
    }
  }

  /** What `echo` prints for either branch of the probe. */
  lemma ProbeAnswers()
    ensures ProbeSaysExists("EXISTS\n")
    ensures !ProbeSaysExists("NOT_EXISTS\n")
    ensures !ProbeSaysExists("")
  {
    TrimPadded("", ExistsSentinel, "\n");
    assert "" + ExistsSentinel + "\n" == "EXISTS\n";
    TrimPadded("", "NOT_EXISTS", "\n");
    assert "" + "NOT_EXISTS" + "\n" == "NOT_EXISTS\n";
  }

  function FolderExists(script: Script, path: string): bool {
    ProbeSaysExists(script(ProbeCommand(path, 'd')).output)
  }

  function FileExists(script: Script, path: string): bool {
    ProbeSaysExists(script(ProbeCommand(path, 'f')).output)
  }

  /** `RunCommand`'s verdict on a finished command: it throws, carrying the
      error text verbatim, exactly when standard error is not empty. */
  function CommandOutcome(reply: Reply): (r: Outcome<Fault>)
    ensures r.Fail? <==> reply.error != []
    ensures r.Fail? ==> r.error == SshError(reply.error)
  {
    if reply.error == [] then Pass else Fail(SshError(reply.error))
  }

  // ---------------------------------------------------------------------
  // Paths: Path.GetDirectoryName and Path.GetFileName on Unix

  /** The length of a Unix path's root: 1 for an absolute path. */
  function RootLength(p: string): nat {
    if p != [] && p[0] == '/' then 1 else 0
  }

  /** Scanning back from `end`, the index of the last '/' after the root,
      or `root` when there is none. */
  function LastSeparator(p: string, root: nat, end: nat): (k: nat)
    requires root <= end <= |p|
    ensures root <= k <= end
    decreases end
  {
    if end == root then root
    else if p[end - 1] == '/' then end - 1
    else LastSeparator(p, root, end - 1)
  }

  /** Steps `end` back over a run of separators, never into the root. */
  function TrimSeparators(p: string, root: nat, end: nat): (k: nat)
    requires root <= end <= |p|
    ensures root <= k <= end
    decreases end
  {
    if end > root && p[end - 1] == '/' then TrimSeparators(p, root, end - 1) else end
  }

  /** `Path.GetDirectoryName`: None where .NET returns null (the empty
      path and the bare root). */
  function GetDirectoryName(p: string): (r: Option<string>)
    ensures r.None? <==> |p| <= RootLength(p)
    ensures r.Some? ==> r.value < p
  {
    var root := RootLength(p);
    if |p| <= root then None
    else Some(p[..TrimSeparators(p, root, LastSeparator(p, root, |p|))])
  }

  /** The index just after the last '/' before `end`, or 0. */
  function AfterLastSlash(p: string, end: nat): (k: nat)
    requires end <= |p|
    ensures k <= end
    ensures k > 0 ==> p[k - 1] == '/'
    ensures forall i :: k <= i < end ==> p[i] != '/'
    decreases end
  {
    if end == 0 then 0 else if p[end - 1] == '/' then end else AfterLastSlash(p, end - 1)
  }

  /** `Path.GetFileName`: what follows the last '/'. */
  function GetFileName(p: string): (name: string)
    ensures |name| <= |p| && name == p[|p| - |name|..] && '/' !in name
    ensures |name| < |p| ==> p[|p| - |name| - 1] == '/'
  {
    p[AfterLastSlash(p, |p|)..]
  }

  function ReplaceBackslashes(s: string): (r: string)
    ensures |r| == |s|
  {
    seq(|s|, i requires 0 <= i < |s| => if s[i] == '\\' then '/' else s[i])
  }

  /** `Path.GetDirectoryName(x)?.Replace('\\', '/') ?? string.Empty`, the
      grouping key of `GetLibraryPaths` and the parent directory of
      `CreateDestinationParentPath`. */
  function DirectoryKey(p: string): string {
    match GetDirectoryName(p)
    case None => ""
    case Some(d) => ReplaceBackslashes(d)
  }

  lemma {:induction false} LastSeparatorFinds(p: string, root: nat, end: nat, k: nat)
    requires root <= k < end <= |p|
    requires p[k] == '/'
    requires forall i :: k < i < end ==> p[i] != '/'
    ensures LastSeparator(p, root, end) == k
    decreases end
  {
    if p[end - 1] != '/' {
      LastSeparatorFinds(p, root, end - 1, k);
    }
  }

  lemma {:induction false} AfterLastSlashFinds(p: string, end: nat, k: nat)
    requires k < end <= |p|
    requires p[k] == '/'
    requires forall i :: k < i < end ==> p[i] != '/'
    ensures AfterLastSlash(p, end) == k + 1
    decreases end
  {
    if p[end - 1] != '/' {
      AfterLastSlashFinds(p, end - 1, k);
    }
  }

  /** For a path `dir/name`, where `dir` does not end in a separator and
      `name` holds none, the key is `dir` and the file name is `name`: the
      path is split at its last '/'. */
  lemma SplitsAtLastSlash(dir: string, name: string)
    requires dir != [] && dir[|dir| - 1] != '/' && '\\' !in dir
    requires '/' !in name
    ensures DirectoryKey(dir + "/" + name) == dir
    ensures GetFileName(dir + "/" + name) == name
  {
    var p := dir + "/" + name;
    var k := |dir|;
    assert p[k] == '/';
    assert forall i :: k < i < |p| ==> p[i] == name[i - k - 1];
    var root := RootLength(p);
    assert root == RootLength(dir);
    assert root < k by {
      if root == 1 && k == 1 { assert dir[0] == '/'; }
    }
    LastSeparatorFinds(p, root, |p|, k);
    assert p[k - 1] == dir[k - 1];
    assert TrimSeparators(p, root, k) == k;
    assert p[..k] == dir;
    assert ReplaceBackslashes(dir) == dir;
    AfterLastSlashFinds(p, |p|, k);
    assert p[k + 1..] == name;
  }

  // ---------------------------------------------------------------------
  // Reading the output of find

  /** `output.Split('\n', RemoveEmptyEntries).Where(x => !IsNullOrEmpty(x))`,
      the result of `GetAllPaths` and `GetFiles`. */
  function ListedPaths(output: string): seq<string> {
    NonEmpty(SplitNonEmpty(output, '\n'))
  }

  lemma {:induction false} NonEmptyKeepsNonEmpty(parts: seq<string>)
    requires forall k :: 0 <= k < |parts| ==> parts[k] != []
    ensures NonEmpty(parts) == parts
    decreases |parts|
  {
    if parts != [] {
      NonEmptyKeepsNonEmpty(parts[1..]);
    }
  }

  /** The listed paths are exactly the non-empty lines of the output, in
      their original order: non-empty, free of '\n', and together every
      character of the output but the line breaks. */
  lemma ListedPathsAreTheLines(output: string)
    ensures ListedPaths(output) == SplitNonEmpty(output, '\n')
    ensures forall k :: 0 <= k < |ListedPaths(output)| ==>
      ListedPaths(output)[k] != [] && '\n' !in ListedPaths(output)[k]
    ensures Concat(ListedPaths(output)) == Without(output, '\n')
  {
    SplitNonEmptyCharacterized(output, '\n');
    NonEmptyKeepsNonEmpty(SplitNonEmpty(output, '\n'));
  }

  /** Where the lines break is kept: output made of non-empty lines joined
      by '\n' is listed as exactly those lines. */
  lemma ListedPathsOfLines(lines: seq<string>)
    requires lines != []
    requires forall k :: 0 <= k < |lines| ==> lines[k] != [] && '\n' !in lines[k]
    ensures ListedPaths(Join(lines, '\n')) == lines
  {
    SplitJoin(lines, '\n');
    NonEmptyKeepsNonEmpty(lines);
    NonEmptyKeepsNonEmpty(NonEmpty(lines));
  }

  lemma ListedPathsExample()
    ensures ListedPaths("") == []
    ensures ListedPaths("/lib/a\n\n/lib/b\n") == ["/lib/a", "/lib/b"]
  {
    assert "/lib/a\n\n/lib/b\n" == "/lib/a" + "\n" + ("" + "\n" + ("/lib/b" + "\n" + ""));
    SplitAtFirstSeparator("/lib/a", '\n', "" + "\n" + ("/lib/b" + "\n" + ""));
    SplitAtFirstSeparator("", '\n', "/lib/b" + "\n" + "");
    SplitAtFirstSeparator("/lib/b", '\n', "");
    NonEmptyKeepsNonEmpty(["/lib/a", "/lib/b"]);
  }

  function NameIfPresent(name: string): seq<string> {
    if name == [] then [] else [name]
  }

  /** The `ToLookup`/`Where`/`ToDictionary` pipeline of `GetLibraryPaths`:
      lines are grouped by directory key in order, a group with an empty
      key is dropped, and empty file names are dropped from each group. */
  function GroupByDirectory(lines: seq<string>): (groups: map<string, seq<string>>)
    ensures forall key :: key in groups ==> key != []
    ensures forall key :: key in groups ==> forall k :: 0 <= k < |groups[key]| ==> groups[key][k] != []
    decreases |lines|
  {
    if lines == [] then map[]
    else AddLine(GroupByDirectory(lines[..|lines| - 1]), lines[|lines| - 1])
  }

  /** One step of the grouping: the line's file name, if any, is appended
      to its directory's group; a line without a directory is ignored. */
  function AddLine(groups: map<string, seq<string>>, line: string): map<string, seq<string>> {
    var key := DirectoryKey(line);
    if key == [] then groups
    else groups[key := (if key in groups then groups[key] else []) + NameIfPresent(GetFileName(line))]
  }

  lemma AddLineAt(groups: map<string, seq<string>>, line: string, key: string)
    requires [] !in groups
    ensures key in AddLine(groups, line) <==> key in groups || (key != [] && DirectoryKey(line) == key)
    ensures key in AddLine(groups, line) ==>
      AddLine(groups, line)[key] == (if key in groups then groups[key] else []) + Contribution(line, key)
  {
    if key in groups && DirectoryKey(line) != key {
      assert Contribution(line, key) == [];
      assert groups[key] + [] == groups[key];
    }
  }

  /** The concatenation, in line order, of what `f` makes of each line. */
  function Gather(lines: seq<string>, f: string -> seq<string>): seq<string>
    decreases |lines|
  {
    if lines == [] then [] else f(lines[0]) + Gather(lines[1..], f)
  }

  lemma {:induction false} GatherSnoc(lines: seq<string>, line: string, f: string -> seq<string>)
    ensures Gather(lines + [line], f) == Gather(lines, f) + f(line)
    decreases |lines|
  {
    if lines == [] {
      assert [] + [line] == [line];
    } else {
      assert (lines + [line])[1..] == lines[1..] + [line];
      GatherSnoc(lines[1..], line, f);
    }
  }

  /** The file name a line adds to the group of `key`, if any. */
  function Contribution(line: string, key: string): seq<string> {
    if DirectoryKey(line) == key then NameIfPresent(GetFileName(line)) else []
  }

  function ContributionTo(key: string): string -> seq<string> {
    line => Contribution(line, key)
  }

  /** Reference reading of one group: the non-empty file names of the lines
      whose directory is `key`, in the order of the lines. */
  function FilesIn(lines: seq<string>, key: string): seq<string> {
    Gather(lines, ContributionTo(key))
  }

  /** Some line lies in directory `key`. */
  predicate Lists(lines: seq<string>, key: string) {
    exists i :: 0 <= i < |lines| && DirectoryKey(lines[i]) == key
  }

  lemma FilesInSnoc(lines: seq<string>, line: string, key: string)
    ensures FilesIn(lines + [line], key) == FilesIn(lines, key) + Contribution(line, key)
  {
    GatherSnoc(lines, line, ContributionTo(key));
  }

  lemma {:induction false} FilesInAbsent(lines: seq<string>, key: string)
    requires !Lists(lines, key)
    ensures FilesIn(lines, key) == []
    decreases |lines|
  {
    if lines != [] {
      assert DirectoryKey(lines[0]) != key;
      assert !Lists(lines[1..], key) by {
        forall i | 0 <= i < |lines[1..]| ensures DirectoryKey(lines[1..][i]) != key {
          assert lines[1..][i] == lines[i + 1];
        }
      }
      FilesInAbsent(lines[1..], key);
    }
  }

  /** The dictionary has a key for exactly the non-empty directories that
      some line lies in, and each key's group is that directory's file
      names in line order. */
  lemma ListsSnoc(init: seq<string>, line: string, key: string)
    ensures Lists(init + [line], key) <==> Lists(init, key) || DirectoryKey(line) == key
  {
    var lines := init + [line];
    if Lists(lines, key) {
      var i :| 0 <= i < |lines| && DirectoryKey(lines[i]) == key;
      if i < |init| { assert lines[i] == init[i]; }
    }
    if Lists(init, key) {
      var i :| 0 <= i < |init| && DirectoryKey(init[i]) == key;
      assert lines[i] == init[i];
    }
    if DirectoryKey(line) == key {
      assert lines[|init|] == line;
    }
  }

  /** The grouping seen from one directory key, by induction on the lines. */
  lemma {:induction false} GroupByDirectoryAt(lines: seq<string>, key: string)
    ensures key in GroupByDirectory(lines) <==> key != [] && Lists(lines, key)
    ensures key in GroupByDirectory(lines) ==> GroupByDirectory(lines)[key] == FilesIn(lines, key)
    decreases |lines|
  {
    if lines == [] {
      assert !Lists(lines, key);
    } else {
      var init := lines[..|lines| - 1];
      var line := lines[|lines| - 1];
      assert lines == init + [line];
      var before := GroupByDirectory(init);
      assert GroupByDirectory(lines) == AddLine(before, line);
      GroupByDirectoryAt(init, key);
      AddLineAt(before, line, key);
      ListsSnoc(init, line, key);
      FilesInSnoc(init, line, key);
      if key !in before && key != [] {
        FilesInAbsent(init, key);
      }
    }
  }

  /** The dictionary has a key for exactly the non-empty directories that
      some line lies in, and each key's group is that directory's file
      names in line order. */
  lemma GroupByDirectoryCorrect(lines: seq<string>)
    ensures forall key :: key in GroupByDirectory(lines) <==> key != [] && Lists(lines, key)
    ensures forall key :: key in GroupByDirectory(lines) ==> GroupByDirectory(lines)[key] == FilesIn(lines, key)
  {
    forall key ensures key in GroupByDirectory(lines) <==> key != [] && Lists(lines, key) {
      GroupByDirectoryAt(lines, key);
    }
    forall key | key in GroupByDirectory(lines) ensures GroupByDirectory(lines)[key] == FilesIn(lines, key) {
      GroupByDirectoryAt(lines, key);
    }
  }

  /** `GetLibraryPaths` on the output of `find`. */
  function LibraryPaths(output: string): map<string, seq<string>> {
    GroupByDirectory(SplitNonEmpty(output, '\n'))
  }

  /** Grouping two lines of one directory keeps both names, in order. */
  lemma GroupTwoFiles(dir: string, first: string, second: string)
    requires dir != [] && dir[|dir| - 1] != '/' && '\\' !in dir
    requires first != [] && second != [] && '/' !in first && '/' !in second
    ensures GroupByDirectory([dir + "/" + first, dir + "/" + second]) == map[dir := [first, second]]
  {
    var a, b := dir + "/" + first, dir + "/" + second;
    SplitsAtLastSlash(dir, first);
    SplitsAtLastSlash(dir, second);
    assert [a, b][..1] == [a];
    assert [a][..0] == [];
    assert GroupByDirectory([]) == map[];
    assert NameIfPresent(first) == [first];
    assert GroupByDirectory([a]) == map[][dir := [] + [first]];
    assert [] + [first] == [first];
    assert NameIfPresent(second) == [second];
    assert [first] + [second] == [first, second];
  }

  /** Two non-empty lines separated by one line break are read as those
      two lines. */
  lemma TwoLines(a: string, b: string)
    requires a != [] && b != [] && '\n' !in a && '\n' !in b
    ensures SplitNonEmpty(a + "\n" + b, '\n') == [a, b]
  {
    SplitAtFirstSeparator(a, '\n', b);
    SplitWithoutSeparator(b, '\n');
    NonEmptyKeepsNonEmpty([a, b]);
  }

  /** Two files in one directory are listed under that directory, in
      order. */
  lemma LibraryPathsTwoFiles(dir: string, first: string, second: string)
    requires dir != [] && dir[|dir| - 1] != '/' && '\\' !in dir && '\n' !in dir
    requires first != [] && second != [] && '/' !in first && '/' !in second
    requires '\n' !in first && '\n' !in second
    ensures LibraryPaths(dir + "/" + first + "\n" + dir + "/" + second) == map[dir := [first, second]]
  {
    var a, b := dir + "/" + first, dir + "/" + second;
    assert dir + "/" + first + "\n" + dir + "/" + second == a + "\n" + b;
    assert '\n' !in a && '\n' !in b by {
      assert forall i :: 0 <= i < |a| ==> a[i] in dir || a[i] == '/' || a[i] in first;
      assert forall i :: 0 <= i < |b| ==> b[i] in dir || b[i] == '/' || b[i] in second;
    }
    TwoLines(a, b);
    GroupTwoFiles(dir, first, second);
  }

  /** The output of `find` for two files of `/lib/x` gives one group. */
  lemma LibraryPathsExample()
    ensures LibraryPaths("/lib/x/file1\n/lib/x/file2") == map["/lib/x" := ["file1", "file2"]]
  {
    var dir, f1, f2 := "/lib/x", "file1", "file2";
    assert "/lib/x/file1\n/lib/x/file2" == dir + "/" + f1 + "\n" + dir + "/" + f2;
    LibraryPathsTwoFiles(dir, f1, f2);
  }

  /** Empty output gives an empty dictionary, not an error. */
  lemma LibraryPathsEmpty()
    ensures LibraryPaths("") == map[]
  {
    assert Split("", '\n') == [[]];
  }

  // ---------------------------------------------------------------------
  // CreateDestinationParentPath and Move

  /** The parent must be created: it is named and exists neither as a
      folder nor as a file. */
  predicate ParentMissing(script: Script, destination: string) {
    var parent := DirectoryKey(destination);
    parent != [] && !FolderExists(script, parent) && !FileExists(script, parent)
  }

  /** The commands `CreateDestinationParentPath` issues, in order; the
      probes short-circuit as `||` does in the source. */
  function ParentPathCommands(script: Script, destination: string): seq<string> {
    var parent := DirectoryKey(destination);
    if parent == [] then []
    else if FolderExists(script, parent) then [ProbeCommand(parent, 'd')]
    else if FileExists(script, parent) then [ProbeCommand(parent, 'd'), ProbeCommand(parent, 'f')]
    else [ProbeCommand(parent, 'd'), ProbeCommand(parent, 'f'), MakeParentCommand(parent)]
  }

  function ParentPathOutcome(script: Script, destination: string): Outcome<Fault> {
    if ParentMissing(script, destination)
    then CommandOutcome(script(MakeParentCommand(DirectoryKey(destination))))
    else Pass
  }

  /** Source exists as a file or as a folder. */
  predicate SourceExists(script: Script, source: string) {
    FileExists(script, source) || FolderExists(script, source)
  }

  /** The source probes of `Move`: the file probe, then the folder probe
      only when the file probe failed. */
  function SourceProbes(script: Script, source: string): seq<string> {
    [ProbeCommand(source, 'f')] + (if FileExists(script, source) then [] else [ProbeCommand(source, 'd')])
  }

  /** The commands of `Move` once the source is known to exist: the parent
      step, then `mv` unless the parent step failed. */
  function PlaceCommands(script: Script, source: string, destination: string): seq<string> {
    ParentPathCommands(script, destination)
    + (if ParentPathOutcome(script, destination).Pass? then [MoveCommand(source, destination)] else [])
  }

  function PlaceOutcome(script: Script, source: string, destination: string): Outcome<Fault> {
    if ParentPathOutcome(script, destination).Fail? then ParentPathOutcome(script, destination)
    else CommandOutcome(script(MoveCommand(source, destination)))
  }

  /** The commands `Move` issues, in order. */
  function MoveCommands(script: Script, source: string, destination: string): seq<string> {
    if !SourceExists(script, source) then SourceProbes(script, source)
    else SourceProbes(script, source) + PlaceCommands(script, source, destination)
  }

  function MoveOutcome(script: Script, source: string, destination: string): Outcome<Fault> {
    if !SourceExists(script, source) then Fail(IOError("Source path " + source + " does not exist"))
    else PlaceOutcome(script, source, destination)
  }

  /** A make-directory command is never a probe, and a move is neither. */
  lemma CommandsDiffer(p: string, q: string, d: char, s: string, t: string)
    ensures MakeParentCommand(p) != ProbeCommand(q, d)
    ensures MoveCommand(s, t) != ProbeCommand(q, d)
    ensures MoveCommand(s, t) != MakeParentCommand(p)
  {
    assert MakeParentCommand(p)[0] == 'u';
    assert ProbeCommand(q, d)[0] == '[';
    assert MoveCommand(s, t)[0] == 'm';
  }

  lemma MakeParentCommandInjective(p: string, q: string)
    ensures MakeParentCommand(p) == MakeParentCommand(q) ==> p == q
  {
    var prefix := "umask 002 && mkdir -p \"";
    if MakeParentCommand(p) == MakeParentCommand(q) {
      assert |p| == |q|;
      assert MakeParentCommand(p)[|prefix|..|prefix| + |p|] == p;
      assert MakeParentCommand(q)[|prefix|..|prefix| + |q|] == q;
    }
  }

  /** `CreateDestinationParentPath` issues `mkdir -p` on exactly the
      missing parent and only when it is missing, last; otherwise it only
      probes. */
  lemma ParentPathCreatesOnlyWhenMissing(script: Script, destination: string, p: string)
    ensures MakeParentCommand(p) in ParentPathCommands(script, destination) <==>
      ParentMissing(script, destination) && p == DirectoryKey(destination)
    ensures ParentMissing(script, destination) ==>
      ParentPathCommands(script, destination)[|ParentPathCommands(script, destination)| - 1]
        == MakeParentCommand(DirectoryKey(destination))
    ensures !ParentMissing(script, destination) ==> ParentPathOutcome(script, destination) == Pass
  {
    var parent := DirectoryKey(destination);
    CommandsDiffer(p, parent, 'd', "", "");
    CommandsDiffer(p, parent, 'f', "", "");
    MakeParentCommandInjective(p, parent);
  }

  /** `Move` is gated on the source probes: when the source exists as
      neither file nor folder it fails with an IOException after probing,
      creating no directory and moving nothing. */
  lemma MoveGatedOnSource(script: Script, source: string, destination: string, p: string)
    requires !SourceExists(script, source)
    ensures MoveOutcome(script, source, destination) == Fail(IOError("Source path " + source + " does not exist"))
    ensures MoveCommands(script, source, destination) == [ProbeCommand(source, 'f'), ProbeCommand(source, 'd')]
    ensures MoveCommand(source, destination) !in MoveCommands(script, source, destination)
    ensures MakeParentCommand(p) !in MoveCommands(script, source, destination)
  {
    CommandsDiffer(p, source, 'f', source, destination);
    CommandsDiffer(p, source, 'd', source, destination);
  }

  /** Otherwise the parent step runs first and the move runs last, exactly
      once, unless the parent step failed, in which case nothing is moved
      and that failure is the result. */
  lemma MoveAfterParent(script: Script, source: string, destination: string)
    requires SourceExists(script, source)
    ensures ParentPathOutcome(script, destination).Pass? ==>
      MoveCommands(script, source, destination) ==
        SourceProbes(script, source) + ParentPathCommands(script, destination) + [MoveCommand(source, destination)]
      && MoveOutcome(script, source, destination) == CommandOutcome(script(MoveCommand(source, destination)))
    ensures ParentPathOutcome(script, destination).Fail? ==>
      MoveCommand(source, destination) !in MoveCommands(script, source, destination)
      && MoveOutcome(script, source, destination) == ParentPathOutcome(script, destination)
  {
    var parent := DirectoryKey(destination);
    CommandsDiffer(parent, source, 'f', source, destination);
    CommandsDiffer(parent, source, 'd', source, destination);
    CommandsDiffer(parent, parent, 'f', source, destination);
    CommandsDiffer(parent, parent, 'd', source, destination);
  }

  /** No command before the final `mv` is that `mv`: together with
      MoveAfterParent, the move runs exactly once. */
  lemma MoveRunsOnce(script: Script, source: string, destination: string)
    ensures MoveCommand(source, destination) !in SourceProbes(script, source) + ParentPathCommands(script, destination)
  {
    var parent := DirectoryKey(destination);
    CommandsDiffer(parent, source, 'f', source, destination);
    CommandsDiffer(parent, source, 'd', source, destination);
    CommandsDiffer(parent, parent, 'f', source, destination);
    CommandsDiffer(parent, parent, 'd', source, destination);
  }
}
