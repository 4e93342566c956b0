/** The remote filesystem client (Infrastructure/Clients/SshFileSystemClient.cs)
    over a model of its SSH connection: the connection is a flag, a log of
    what happened on it, and a fixed reply for every command text. Every
    public operation connects when needed, runs its commands in order and
    disconnects whatever the outcome; probes gate the commands that follow
    them, and a non-empty standard error becomes an `SshException`. */
module SshFileSystem {
  import opened Common
  import opened SshCommands
  import Text

  /** What the client does on its connection. */
  datatype SshEvent = Connect | Disconnect | Issue(command: string)

  function Issued(commands: seq<string>): (events: seq<SshEvent>)
    ensures |events| == |commands|
    ensures forall k :: 0 <= k < |commands| ==> events[k] == Issue(commands[k])
  {
    seq(|commands|, k requires 0 <= k < |commands| => Issue(commands[k]))
  }

  lemma IssuedAppend(a: seq<string>, b: seq<string>)
    ensures Issued(a + b) == Issued(a) + Issued(b)
  {
  }

  /** A `Connect` unless the connection was already up. */
  function Opening(wasConnected: bool): seq<SshEvent> {
    if wasConnected then [] else [Connect]
  }

  /** The whole trace of one public operation: `ConnectionWrapper` opens
      the connection if needed, the operation issues `commands`, and the
      connection is closed afterwards. */
  function Bracketed(wasConnected: bool, commands: seq<string>): seq<SshEvent> {
    Opening(wasConnected) + Issued(commands) + [Disconnect]
  }

  lemma BracketedLog(before: seq<SshEvent>, wasConnected: bool, commands: seq<string>)
    ensures before + Opening(wasConnected) + Issued(commands) + [Disconnect] == before + Bracketed(wasConnected, commands)
  {
  }

  lemma BracketedOne(before: seq<SshEvent>, wasConnected: bool, command: string)
    ensures before + Opening(wasConnected) + [Issue(command)] + [Disconnect] == before + Bracketed(wasConnected, [command])
  {
    assert Issued([command]) == [Issue(command)];
  }

  lemma BracketedTwo(before: seq<SshEvent>, wasConnected: bool, first: string, second: string)
    ensures before + Opening(wasConnected) + [Issue(first)] + [Issue(second)] + [Disconnect]
         == before + Bracketed(wasConnected, [first, second])
  {
    assert Issued([first, second]) == [Issue(first), Issue(second)];
  }

  /** `ISshClientWrapper`: the connection to the remote host. */
  class SshClientWrapper {
    var isConnected: bool
    var log: seq<SshEvent>
    const script: Script

    constructor (script: Script, connected: bool)
      ensures this.script == script && isConnected == connected && log == []
    {
      this.script := script;
      isConnected := connected;
      log := [];
    }

    method Connect()
      modifies this
      ensures isConnected && log == old(log) + [SshEvent.Connect]
    {
      isConnected := true;
      log := log + [SshEvent.Connect];
    }

    method Disconnect()
      modifies this
      ensures !isConnected && log == old(log) + [SshEvent.Disconnect]
    {
      isConnected := false;
      log := log + [SshEvent.Disconnect];
    }

    /** `RunCommand(text).Result`: runs a command and hands back its
        standard output; its standard error is not looked at. */
    method RunCommand(command: string) returns (output: string)
      requires isConnected
      modifies this
      ensures isConnected && log == old(log) + [Issue(command)]
      ensures output == script(command).output
    {
      log := log + [Issue(command)];
      output := script(command).output;
    }

    /** `CreateCommand(text)` followed by `Execute()`: runs a command and
        hands back both of its streams. */
    method Execute(command: string) returns (reply: Reply)
      requires isConnected
      modifies this
      ensures isConnected && log == old(log) + [Issue(command)]
      ensures reply == script(command)
    {
      log := log + [Issue(command)];
      reply := script(command);
    }
  }

  const DirectoryNotFoundPrefix: string := "Library directory not found: "

  /** `SshFileSystemClient`, the `IFileSystemClient` over SSH. */
  class SshFileSystemClient {
    const client: SshClientWrapper

    constructor (client: SshClientWrapper)
      ensures this.client == client
    {
      this.client := client;
    }

    /** The part of `ConnectionWrapper` before the action: connect only
        when not connected. */
    method OpenConnection()
      modifies client
      ensures client.isConnected
      ensures client.log == old(client.log) + Opening(old(client.isConnected))
    {
      if !client.isConnected {
        client.Connect();
      }
    }

    /** The `finally` part of `ConnectionWrapper`: disconnect when
        connected, so the client is left disconnected. */
    method CloseConnection()
      modifies client
      ensures !client.isConnected
      ensures client.log == old(client.log) + (if old(client.isConnected) then [Disconnect] else [])
    {
      if client.isConnected {
        client.Disconnect();
      }
    }

    /** `RunCommand`: throws an `SshException` with the error text exactly
        when the command wrote to standard error. */
    method RunCommand(command: string) returns (r: Outcome<Fault>)
      requires client.isConnected
      modifies client
      ensures client.isConnected && client.log == old(client.log) + [Issue(command)]
      ensures r == CommandOutcome(client.script(command))
    {
      var reply := client.Execute(command);
      if reply.error != [] {
        return Fail(SshError(reply.error));
      }
      return Pass;
    }

    method DoesPathExist(path: string, descriptor: char) returns (found: bool)
      requires client.isConnected
      modifies client
      ensures client.isConnected && client.log == old(client.log) + [Issue(ProbeCommand(path, descriptor))]
      ensures found == ProbeSaysExists(client.script(ProbeCommand(path, descriptor)).output)
    {
      var answer := client.RunCommand(ProbeCommand(path, descriptor));
      found := Text.Trim(answer) == ExistsSentinel;
    }

    method DoesFolderExist(path: string) returns (found: bool)
      requires client.isConnected
      modifies client
      ensures client.isConnected && client.log == old(client.log) + [Issue(ProbeCommand(path, 'd'))]
      ensures found == FolderExists(client.script, path)
    {
      found := DoesPathExist(path, 'd');
    }

    method DoesFileExist(path: string) returns (found: bool)
      requires client.isConnected
      modifies client
      ensures client.isConnected && client.log == old(client.log) + [Issue(ProbeCommand(path, 'f'))]
      ensures found == FileExists(client.script, path)
    {
      found := DoesPathExist(path, 'f');
    }

    /** `GetLibraryPaths`: `find -type f`, grouped by directory. */
    method GetLibraryPaths(basePath: string) returns (groups: map<string, seq<string>>)
      requires client.isConnected
      modifies client
      ensures client.isConnected && client.log == old(client.log) + [Issue(FindFilesCommand(basePath))]
      ensures groups == LibraryPaths(client.script(FindFilesCommand(basePath)).output)
    {
      var output := client.RunCommand(FindFilesCommand(basePath));
      groups := LibraryPaths(output);
    }

    /** `GetAllPaths`: the lines of `find -type d`. */
    method GetAllPaths(basePath: string) returns (paths: seq<string>)
      requires client.isConnected
      modifies client
      ensures client.isConnected && client.log == old(client.log) + [Issue(FindDirectoriesCommand(basePath))]
      ensures paths == ListedPaths(client.script(FindDirectoriesCommand(basePath)).output)
    {
      var output := client.RunCommand(FindDirectoriesCommand(basePath));
      paths := ListedPaths(output);
    }

    /** `GetFiles`: the lines of `find -type f -maxdepth 1`. */
    method GetFiles(basePath: string) returns (paths: seq<string>)
      requires client.isConnected
      modifies client
      ensures client.isConnected && client.log == old(client.log) + [Issue(FindTopLevelFilesCommand(basePath))]
      ensures paths == ListedPaths(client.script(FindTopLevelFilesCommand(basePath)).output)
    {
      var output := client.RunCommand(FindTopLevelFilesCommand(basePath));
      paths := ListedPaths(output);
    }

    /** `CreateDestinationParentPath`: `mkdir -p` the destination's parent
        when it is named and exists neither as a folder nor as a file. */
    method CreateDestinationParentPath(destination: string) returns (r: Outcome<Fault>)
      requires client.isConnected
      modifies client
      ensures client.isConnected
      ensures client.log == old(client.log) + Issued(ParentPathCommands(client.script, destination))
      ensures r == ParentPathOutcome(client.script, destination)
    {
      var parent := DirectoryKey(destination);
      if parent == [] {
        return Pass;
      }
      var folder := DoesFolderExist(parent);
      if folder {
        return Pass;
      }
      var file := DoesFileExist(parent);
      if file {
        return Pass;
      }
      r := RunCommand(MakeParentCommand(parent));
    }

    /** `DescribeDirectory`: the folder probe, then `find` only when the
        folder exists. */
    method DescribeDirectory(path: string) returns (r: Result<map<string, seq<string>>, Fault>)
      modifies client
      ensures !client.isConnected
      ensures FolderExists(client.script, path) ==>
        && r == Success(LibraryPaths(client.script(FindFilesCommand(path)).output))
        && client.log == old(client.log) + Bracketed(old(client.isConnected), [ProbeCommand(path, 'd'), FindFilesCommand(path)])
      ensures !FolderExists(client.script, path) ==>
        && r == Failure(DirectoryNotFound(DirectoryNotFoundPrefix + path))
        && client.log == old(client.log) + Bracketed(old(client.isConnected), [ProbeCommand(path, 'd')])
    {
      ghost var before := client.log;
      ghost var wasConnected := client.isConnected;
      OpenConnection();
      var folder := DoesFolderExist(path);
      if !folder {
        r := Failure(DirectoryNotFound(DirectoryNotFoundPrefix + path));
        CloseConnection();
        BracketedOne(before, wasConnected, ProbeCommand(path, 'd'));
      } else {
        var groups := GetLibraryPaths(path);
        r := Success(groups);
        CloseConnection();
        BracketedTwo(before, wasConnected, ProbeCommand(path, 'd'), FindFilesCommand(path));
      }
    }

    /** `ListDirectoriesIn`: the folder probe, then `find -type d` only
        when the folder exists. */
    method ListDirectoriesIn(path: string) returns (r: Result<seq<string>, Fault>)
      modifies client
      ensures !client.isConnected
      ensures FolderExists(client.script, path) ==>
        && r == Success(ListedPaths(client.script(FindDirectoriesCommand(path)).output))
        && client.log == old(client.log) + Bracketed(old(client.isConnected), [ProbeCommand(path, 'd'), FindDirectoriesCommand(path)])
      ensures !FolderExists(client.script, path) ==>
        && r == Failure(DirectoryNotFound(DirectoryNotFoundPrefix + path))
        && client.log == old(client.log) + Bracketed(old(client.isConnected), [ProbeCommand(path, 'd')])
    {
      ghost var before := client.log;
      ghost var wasConnected := client.isConnected;
      OpenConnection();
      var folder := DoesFolderExist(path);
      if !folder {
        r := Failure(DirectoryNotFound(DirectoryNotFoundPrefix + path));
        CloseConnection();
        BracketedOne(before, wasConnected, ProbeCommand(path, 'd'));
      } else {
        var paths := GetAllPaths(path);
        r := Success(paths);
        CloseConnection();
        BracketedTwo(before, wasConnected, ProbeCommand(path, 'd'), FindDirectoriesCommand(path));
      }
    }

    /** `ListFilesIn`: the folder probe, then `find -type f -maxdepth 1`
        only when the folder exists. */
    method ListFilesIn(path: string) returns (r: Result<seq<string>, Fault>)
      modifies client
      ensures !client.isConnected
      ensures FolderExists(client.script, path) ==>
        && r == Success(ListedPaths(client.script(FindTopLevelFilesCommand(path)).output))
        && client.log == old(client.log) + Bracketed(old(client.isConnected), [ProbeCommand(path, 'd'), FindTopLevelFilesCommand(path)])
      ensures !FolderExists(client.script, path) ==>
        && r == Failure(DirectoryNotFound(DirectoryNotFoundPrefix + path))
        && client.log == old(client.log) + Bracketed(old(client.isConnected), [ProbeCommand(path, 'd')])
    {
      ghost var before := client.log;
      ghost var wasConnected := client.isConnected;
      OpenConnection();
      var folder := DoesFolderExist(path);
      if !folder {
        r := Failure(DirectoryNotFound(DirectoryNotFoundPrefix + path));
        CloseConnection();
        BracketedOne(before, wasConnected, ProbeCommand(path, 'd'));
      } else {
        var paths := GetFiles(path);
        r := Success(paths);
        CloseConnection();
        BracketedTwo(before, wasConnected, ProbeCommand(path, 'd'), FindTopLevelFilesCommand(path));
      }
    }

    /** The source probes of `Move`'s action: whether the source exists as
        a file or, failing that, as a folder. */
    method ProbeSource(source: string) returns (found: bool)
      requires client.isConnected
      modifies client
      ensures client.isConnected
      ensures client.log == old(client.log) + Issued(SourceProbes(client.script, source))
      ensures found == SourceExists(client.script, source)
    {
      found := DoesFileExist(source);
      if !found {
        found := DoesFolderExist(source);
      }
    }

    /** The part of `Move`'s action after the source probes. */
    method Place(source: string, destination: string) returns (r: Outcome<Fault>)
      requires client.isConnected
      modifies client
      ensures client.isConnected
      ensures client.log == old(client.log) + Issued(PlaceCommands(client.script, source, destination))
      ensures r == PlaceOutcome(client.script, source, destination)
    {
      ghost var parentCommands := ParentPathCommands(client.script, destination);
      r := CreateDestinationParentPath(destination);
      if r.Fail? {
        assert parentCommands + [] == parentCommands;
        return;
      }
      r := RunCommand(MoveCommand(source, destination));
      IssuedAppend(parentCommands, [MoveCommand(source, destination)]);
    }

    /** The action `Move` runs inside `ConnectionWrapper`. */
    method MoveAction(source: string, destination: string) returns (r: Outcome<Fault>)
      requires client.isConnected
      modifies client
      ensures client.isConnected
      ensures client.log == old(client.log) + Issued(MoveCommands(client.script, source, destination))
      ensures r == MoveOutcome(client.script, source, destination)
    {
      var found := ProbeSource(source);
      if !found {
        return Fail(IOError("Source path " + source + " does not exist"));
      }
      ghost var probes := SourceProbes(client.script, source);
      r := Place(source, destination);
      IssuedAppend(probes, PlaceCommands(client.script, source, destination));
    }

    /** `Move`: see MoveGatedOnSource and MoveAfterParent for what its
        command sequence amounts to. */
    method Move(source: string, destination: string) returns (r: Outcome<Fault>)
      modifies client
      ensures !client.isConnected
      ensures client.log == old(client.log) + Bracketed(old(client.isConnected), MoveCommands(client.script, source, destination))
      ensures r == MoveOutcome(client.script, source, destination)
    {
      ghost var before := client.log;
      ghost var wasConnected := client.isConnected;
      ghost var commands := MoveCommands(client.script, source, destination);
      OpenConnection();
      r := MoveAction(source, destination);
      CloseConnection();
      BracketedLog(before, wasConnected, commands);
    }

    /** `RemoveDirectory`: `rm -rf` on the path, with no probe first. */
    method RemoveDirectory(path: string) returns (r: Outcome<Fault>)
      modifies client
      ensures !client.isConnected
      ensures client.log == old(client.log) + Bracketed(old(client.isConnected), [RemoveDirectoryCommand(path)])
      ensures r == CommandOutcome(client.script(RemoveDirectoryCommand(path)))
    {
      OpenConnection();
      r := RunCommand(RemoveDirectoryCommand(path));
      CloseConnection();
    }

    /** `RemoveFile`: `rm -f` on the path, with no probe first. */
    method RemoveFile(path: string) returns (r: Outcome<Fault>)
      modifies client
      ensures !client.isConnected
      ensures client.log == old(client.log) + Bracketed(old(client.isConnected), [RemoveFileCommand(path)])
      ensures r == CommandOutcome(client.script(RemoveFileCommand(path)))
    {
      OpenConnection();
      r := RunCommand(RemoveFileCommand(path));
      CloseConnection();
    }
  }
}
