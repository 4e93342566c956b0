/** The Move tool (Domain/Tools/MoveTool.cs): both paths must start with
    the library path, and only then is the file system client's `Move`
    called, once, with the two paths unchanged. The client is a parameter
    `move` that says how that call ends. */
module MoveTool {
  import opened Common
  import opened ToolContracts

  /** The tool's name and description: `IToolWithMetadata`'s static
      members, read where the tools are registered, outside this model. */
  const Name: string := "Move"

  const Description: string :=
    "Moves and/or renames a file or directory. Both arguments have to be absolute \n"
    + "paths and must be derived from the LibraryDescription tool response.\n"
    + "Equivalent to 'mv -T {SourcePath} {DestinationPath}' bash command.\n"
    + "The destination path MUST NOT exist, otherwise an exception will be thrown.\n"
    + "All necessary parent directories will be created automatically."

  /** `FileMoveParams`, already parsed. */
  datatype FileMoveParams = FileMoveParams(sourcePath: string, destinationPath: string)

  /** The ordinal `StartsWith` test the guard applies. */
  predicate InLibrary(libraryPath: string, path: string) {
    libraryPath <= path
  }

  /** The `ArgumentException` message for a path outside the library. */
  function OutsideLibraryMessage(libraryPath: string): string {
    "Domain.Tools.MoveTool parameters must be absolute paths derived from the \n"
    + "LibraryDescription tool response. \n"
    + "They must start with the library path: " + libraryPath
  }

  /** The success envelope. */
  function Moved(p: FileMoveParams): Json {
    JObject([
      ("status", JString("success")),
      ("message", JString("File moved successfully")),
      ("source", JString(p.sourcePath)),
      ("destination", JString(p.destinationPath))])
  }

  /** `MoveTool.Run`. */
  function Run(libraryPath: string, p: FileMoveParams, move: (string, string) -> Outcome<Fault>): (r: ToolRun)
    ensures !InLibrary(libraryPath, p.sourcePath) || !InLibrary(libraryPath, p.destinationPath) ==>
      r.calls == [] && r.result == Failure(ArgumentError(OutsideLibraryMessage(libraryPath)))
    ensures InLibrary(libraryPath, p.sourcePath) && InLibrary(libraryPath, p.destinationPath) ==>
      r.calls == [FsMove(p.sourcePath, p.destinationPath)]
    ensures r.result.Success? <==>
      InLibrary(libraryPath, p.sourcePath) && InLibrary(libraryPath, p.destinationPath)
      && move(p.sourcePath, p.destinationPath).Pass?
    ensures r.calls != [] && move(p.sourcePath, p.destinationPath).Fail? ==>
      r.result == Failure(move(p.sourcePath, p.destinationPath).error)
  {
    if !InLibrary(libraryPath, p.sourcePath) || !InLibrary(libraryPath, p.destinationPath) then
      ToolRun([], Failure(ArgumentError(OutsideLibraryMessage(libraryPath))))
    else
      match move(p.sourcePath, p.destinationPath)
      case Pass => ToolRun([FsMove(p.sourcePath, p.destinationPath)], Success(Moved(p)))
      case Fail(e) => ToolRun([FsMove(p.sourcePath, p.destinationPath)], Failure(e))
  }

  /** Nothing outside the library is ever moved: every `Move` the tool
      issues names the requested paths, both under the library path. */
  lemma MovesOnlyInsideLibrary(libraryPath: string, p: FileMoveParams, move: (string, string) -> Outcome<Fault>, call: ClientCall)
    requires call in Run(libraryPath, p, move).calls
    ensures call == FsMove(p.sourcePath, p.destinationPath)
    ensures InLibrary(libraryPath, call.source) && InLibrary(libraryPath, call.destination)
  {
  }

  /** A successful run reports success and echoes both paths verbatim. */
  lemma SuccessEchoesPaths(libraryPath: string, p: FileMoveParams, move: (string, string) -> Outcome<Fault>)
    requires Run(libraryPath, p, move).result.Success?
    ensures var envelope := Run(libraryPath, p, move).result.value;
      && envelope.JObject?
      && Get(envelope.properties, "status") == Some(JString("success"))
      && Get(envelope.properties, "source") == Some(JString(p.sourcePath))
      && Get(envelope.properties, "destination") == Some(JString(p.destinationPath))
  {
    var props := Moved(p).properties;
    assert props[0].0 == "status";
    assert props[1].0 == "message" && props[1].0 != "source" && props[1].0 != "destination";
    assert props[2].0 == "source" && props[0].0 != "source";
    assert props[3].0 == "destination" && props[0].0 != "destination" && props[2].0 != "destination";
    assert props[1..][1..] == props[2..];
    assert props[2..][1..] == props[3..];
  }

  /** The guard is a plain prefix test: the library directory itself and
      any sibling whose name extends it (`/lib` and `/library/x`) pass. */
  lemma GuardIsPlainPrefix(libraryPath: string, sibling: string, move: (string, string) -> Outcome<Fault>)
    ensures Run(libraryPath, FileMoveParams(libraryPath + sibling, libraryPath), move).calls
         == [FsMove(libraryPath + sibling, libraryPath)]
  {
    assert libraryPath <= libraryPath + sibling;
  }
}
