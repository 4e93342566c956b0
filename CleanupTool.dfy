/** The Cleanup tool (Domain/Tools/CleanupTool.cs): removes the download's
    directory, then tells the download client to clean the download up.
    The two clients are parameters saying how each call ends. */
module CleanupTool {
  import opened Common
  import opened Text
  import opened ToolContracts

  const Name: string := "Cleanup"

  const Description: string :=
    "Removes a everything that is left over in a download directory.\n"
    + "It can also be use to cancel a download if the user requests it."

  /** `CleanupParams`, already parsed. */
  datatype CleanupParams = CleanupParams(downloadId: int32)

  /** `$"{baseDownloadLocation}/{DownloadId}"`. */
  function DownloadPath(baseDownloadLocation: string, downloadId: int32): (r: string)
    ensures baseDownloadLocation + "/" <= r
  {
    baseDownloadLocation + "/" + IntToString(downloadId as int)
  }

  /** The download id can be read back from the path: distinct downloads
      under one location never share a directory. */
  lemma DownloadPathNamesTheDownload(baseDownloadLocation: string, downloadId: int32)
    ensures DownloadPath(baseDownloadLocation, downloadId)[|baseDownloadLocation| + 1..] == IntToString(downloadId as int)
    ensures ParseInt(DownloadPath(baseDownloadLocation, downloadId)[|baseDownloadLocation| + 1..]) == downloadId as int
  {
    assert DownloadPath(baseDownloadLocation, downloadId)[|baseDownloadLocation| + 1..] == IntToString(downloadId as int);
    IntToStringRoundTrip(downloadId as int);
  }

  /** Download 42 under `/downloads` is removed from `/downloads/42`. */
  lemma DownloadPathExample()
    ensures DownloadPath("/downloads", 42) == "/downloads/42"
  {
    assert NatToString(42) == NatToString(4) + [Digit(2)];
  }

  lemma DownloadPathInjective(baseDownloadLocation: string, a: int32, b: int32)
    requires DownloadPath(baseDownloadLocation, a) == DownloadPath(baseDownloadLocation, b)
    ensures a == b
  {
    DownloadPathNamesTheDownload(baseDownloadLocation, a);
    DownloadPathNamesTheDownload(baseDownloadLocation, b);
  }

  /** The success envelope. */
  function Removed(p: CleanupParams): Json {
    JObject([
      ("status", JString("success")),
      ("message", JString("Download leftovers removed successfully")),
      ("downloadId", JNumber(p.downloadId as int))])
  }

  /** `CleanupTool.Run`. */
  function Run(baseDownloadLocation: string, p: CleanupParams,
               removeDirectory: string -> Outcome<Fault>, cleanup: int32 -> Outcome<Fault>): (r: ToolRun)
    ensures 1 <= |r.calls| <= 2
    ensures r.calls[0] == FsRemoveDirectory(DownloadPath(baseDownloadLocation, p.downloadId))
    ensures |r.calls| == 2 <==> removeDirectory(DownloadPath(baseDownloadLocation, p.downloadId)).Pass?
    ensures |r.calls| == 2 ==> r.calls[1] == DownloadCleanup(p.downloadId)
    ensures removeDirectory(DownloadPath(baseDownloadLocation, p.downloadId)).Fail? ==>
      r.result == Failure(removeDirectory(DownloadPath(baseDownloadLocation, p.downloadId)).error)
    ensures |r.calls| == 2 && cleanup(p.downloadId).Fail? ==> r.result == Failure(cleanup(p.downloadId).error)
    ensures r.result.Success? <==> |r.calls| == 2 && cleanup(p.downloadId).Pass?
  {
    var path := DownloadPath(baseDownloadLocation, p.downloadId);
    match removeDirectory(path)
    case Fail(e) => ToolRun([FsRemoveDirectory(path)], Failure(e))
    case Pass =>
      var calls := [FsRemoveDirectory(path), DownloadCleanup(p.downloadId)];
      match cleanup(p.downloadId)
      case Fail(e) => ToolRun(calls, Failure(e))
      case Pass => ToolRun(calls, Success(Removed(p)))
  }

  /** A successful run reports success and the requested download id. */
  lemma SuccessNamesTheDownload(baseDownloadLocation: string, p: CleanupParams,
                                removeDirectory: string -> Outcome<Fault>, cleanup: int32 -> Outcome<Fault>)
    requires Run(baseDownloadLocation, p, removeDirectory, cleanup).result.Success?
    ensures var envelope := Run(baseDownloadLocation, p, removeDirectory, cleanup).result.value;
      && envelope.JObject?
      && Get(envelope.properties, "status") == Some(JString("success"))
      && Get(envelope.properties, "downloadId") == Some(JNumber(p.downloadId as int))
  {
    var props := Removed(p).properties;
    assert props[0].0 == "status" && props[0].0 != "downloadId";
    assert props[1].0 == "message" && props[1].0 != "downloadId";
    assert props[2].0 == "downloadId";
    assert props[1..][1..] == props[2..];
  }

  /** `GetToolDefinition`. */
  function GetToolDefinition(): (d: ToolDefinition)
    ensures d.name == Name && d.name == "Cleanup"
  {
    ToolDefinition(Name, Description)
  }
}
