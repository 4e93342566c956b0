/** What the tools hand back and what they ask of their collaborators
    (Domain/Contracts): a JSON value for the result, the calls a tool makes
    on the file system and download clients, and a tool's definition. */
module ToolContracts {
  import opened Common

  /** The subset of `JsonNode` the tools build. An object keeps its
      properties in insertion order. */
  datatype Json =
    | JString(text: string)
    | JNumber(number: int)
    | JObject(properties: seq<(string, Json)>)

  /** The value of the first property named `key`, if any. */
  function Get(properties: seq<(string, Json)>, key: string): (r: Option<Json>)
    ensures r.None? <==> forall k :: 0 <= k < |properties| ==> properties[k].0 != key
    ensures r.Some? ==> exists k :: (0 <= k < |properties| && properties[k] == (key, r.value)
                                     && forall j :: 0 <= j < k ==> properties[j].0 != key)
  {
    if properties == [] then None
    else if properties[0].0 == key then Some(properties[0].1)
    else
      var r := Get(properties[1..], key);
      assert r.Some? ==> exists k :: (1 <= k < |properties| && properties[k] == (key, r.value)
                                      && forall j :: 0 <= j < k ==> properties[j].0 != key) by {
        if r.Some? {
          var i :| 0 <= i < |properties[1..]| && properties[1..][i] == (key, r.value)
            && forall j :: 0 <= j < i ==> properties[1..][j].0 != key;
          assert properties[i + 1] == (key, r.value);
          forall j | 0 <= j < i + 1
            ensures properties[j].0 != key
          {
            if j > 0 {
              assert properties[j] == properties[1..][j - 1];
            }
          }
        }
      }
      r
  }

  /** A call a tool makes on a collaborator, recorded in the order made. */
  datatype ClientCall =
    | FsMove(source: string, destination: string)
    | FsRemoveDirectory(path: string)
    | DownloadCleanup(downloadId: int32)

  /** A tool run: the collaborator calls it made, then its JSON result or
      the exception it let through. */
  datatype ToolRun = ToolRun(calls: seq<ClientCall>, result: Result<Json, Fault>)

  /** `ToolDefinition<TParams>`: the name and description offered to the
      language model (the parameter schema is derived from the type). */
  datatype ToolDefinition = ToolDefinition(name: string, description: string)
}
