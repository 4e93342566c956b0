# Dethon/agent core in Dafny

This project models the core of a chat-driven download agent, which has five parts.

- **Remote file system client (`SshFileSystemClient`).** It runs shell commands over SSH. It decides existence with an `echo EXISTS` probe. It reads `find` output into path lists and into a directory-to-files dictionary. It gates listing, moving and parent-directory creation on those probes. Every operation is bracketed with connect-if-needed and always-disconnect.
- **Agent registry (`AgentResolver`).** This is a cache from `"IAgent{id}"` keys to agents with absolute expiry.
  - A live hit is returned as is.
  - A miss builds a new download agent, which is not registered.
  - An association overwrites the key's entry.
- **Chat dispatcher (`ChatMonitor`).** It queues one agent task per incoming prompt. An agent task does two things:
  - it finds the agent by the replied-to id plus the sender's hash;
  - it sends one formatted reply per agent response, and associates every delivered reply's id plus that hash with the same agent. This is what makes a later reply continue the same conversation.
- **Move tool.** It applies a library-prefix guard, then delegates to the client's `Move`.
- **Cleanup tool.** It removes the download's directory, then asks the download client to clean up.

## Layout
- `Common.dfy`: `Option`, `Result` and `Outcome` (a value or an exception). Also the exception kinds, and C#'s `int` with its wrapping addition.
- `Text.dfy`: the .NET string operations the core relies on. These are `Split` with and without `RemoveEmptyEntries`, `Join`, `Trim` over the `Char.IsWhiteSpace` set, `Left`, and decimal `int` formatting with its inverse.
- `SshCommands.dfy`: the pure part of the SSH client. It covers:
  - the exact command strings;
  - the probe reading and the standard-error verdict;
  - `Path.GetDirectoryName` and `Path.GetFileName` on Unix;
  - the `find` readers;
  - the command sequences of `Move` and `CreateDestinationParentPath`, as functions of the remote host's behaviour.
- `SshFileSystem.dfy`: the connection as a class and the client's methods. The connection class has a connected flag, an event log and a fixed reply per command text. Each client method is proved to produce exactly the log and the result given by the functions above.
- `Agents.dfy`: the cache as a map from key to `(agent, expiresAt)`, with the resolver as a class over it.
- `ChatMonitor.dfy`: the key derivation, the reply format, the chat client and task queue as classes, the monitor's loops, and the thread-continuity lemmas.
- `Contracts.dfy`, `MoveTool.dfy`, `CleanupTool.dfy`: each tool is a function. It takes the parsed parameters and the collaborator behaviour, and returns the calls it made and its JSON result or its exception.

C# exceptions are error values: `Failure(...)` or `Fail(...)`, which carry a `Fault`. Time is an integer `now` supplied by the caller.

## Model

| member | source | states |
|---|---|---|
| Common.WrappingAdd | Domain/Monitor/ChatMonitor.cs:38-40 | the C# `int` sum is congruent to the mathematical sum modulo 2^32 and equals it when it fits in 32 bits |
| Text.IsWhiteSpace | Infrastructure/Clients/SshFileSystemClient.cs:169 | the `Char.IsWhiteSpace` set `Trim` strips: the Unicode space, line and paragraph separators and U+0009 to U+000D and U+0085; what it means for `Trim` is stated by `Text.TrimDecomposes` |
| Text.TrimDecomposes | Infrastructure/Clients/SshFileSystemClient.cs:169 | every string is leading white space, then its `Trim`, then trailing white space, and the trimmed form neither starts nor ends with white space |
| Text.TrimPadded | Infrastructure/Clients/SshFileSystemClient.cs:169 | `Trim` removes any white-space padding around a word that has none at its ends |
| Text.Split | Infrastructure/Clients/SshFileSystemClient.cs:120 | `Split` yields at least one piece and no piece contains the separator |
| Text.Join | Domain/Monitor/ChatMonitor.cs:66 | `String.Join(sep, parts)`: the pieces with one separator between neighbours; `Text.JoinSplit` and `Text.SplitJoin` show it is the inverse of `Split` |
| Text.JoinSplit | Infrastructure/Clients/SshFileSystemClient.cs:120 | joining the pieces of a split with the separator restores the input |
| Text.SplitJoin | Domain/Monitor/ChatMonitor.cs:66 | splitting a join of separator-free pieces restores the pieces |
| Text.NonEmpty | Infrastructure/Clients/SshFileSystemClient.cs:132-133 | the filter keeps only non-empty pieces, each taken from the input, and never adds any |
| Text.NonEmptyAppend | Infrastructure/Clients/SshFileSystemClient.cs:132-133 | the filter distributes over concatenation, so it works piece by piece and keeps the pieces' order |
| Text.NonEmptySingle | Infrastructure/Clients/SshFileSystemClient.cs:132-133 | a single empty piece is dropped and a single non-empty piece is kept |
| Text.SplitNonEmpty | Infrastructure/Clients/SshFileSystemClient.cs:120 | `Split(sep, RemoveEmptyEntries)`, as `find`'s output is read at lines 120, 132 and 140; `Text.SplitNonEmptyCharacterized` states its pieces are non-empty, separator-free and, in order, the input without its separators |
| Text.SplitNonEmptyCharacterized | Infrastructure/Clients/SshFileSystemClient.cs:131-133 | the pieces of `Split(sep, RemoveEmptyEntries)` are non-empty and separator-free, and together, in order, they hold exactly the input's characters minus the separators |
| Text.Trim | Infrastructure/Clients/SshFileSystemClient.cs:169 | `string.Trim()`: strips leading and trailing `Char.IsWhiteSpace` characters; its meaning is stated by `Text.TrimDecomposes` and `Text.TrimPadded` |
| Text.Left | Domain/Monitor/ChatMonitor.cs:68 | `Left(n)` is the prefix of length min(length, n) |
| Text.NatToStringNoLeadingZero | Domain/Tools/CleanupTool.cs:24 | zero is written `"0"` and no other number has a leading zero, so a number has one decimal form |
| Text.IntToString | Domain/Agents/AgentResolver.cs:47 | the decimal form of an `int`, with a leading `-` when negative; it is stated by `Text.IntToStringRoundTrip`, `Text.IntToStringInjective` and `Text.NatToStringNoLeadingZero` |
| Text.IntToStringRoundTrip | Domain/Agents/AgentResolver.cs:47 | decimal formatting of an `int` can be parsed back to the same number |
| Text.IntToStringInjective | Domain/Agents/AgentResolver.cs:47 | distinct numbers format to distinct strings |
| SshCommands.ProbeCommand | Infrastructure/Clients/SshFileSystemClient.cs:168 | the existence probe `[ -d "p" ] && echo "EXISTS" \|\| echo "NOT_EXISTS"`, or `-f`; `SshCommands.CommandsDiffer` shows it is never confused with `mkdir` or `mv` |
| SshCommands.FindFilesCommand | Infrastructure/Clients/SshFileSystemClient.cs:119 | `find "p" -type f`, the only command of `GetLibraryPaths` (see `SshFileSystem.SshFileSystemClient.GetLibraryPaths`) |
| SshCommands.FindDirectoriesCommand | Infrastructure/Clients/SshFileSystemClient.cs:131 | `find "p" -type d`, the only command of `GetAllPaths` (see `SshFileSystem.SshFileSystemClient.GetAllPaths`) |
| SshCommands.FindTopLevelFilesCommand | Infrastructure/Clients/SshFileSystemClient.cs:139 | `find "p" -type f -maxdepth 1`, the only command of `GetFiles` (see `SshFileSystem.SshFileSystemClient.GetFiles`) |
| SshCommands.MoveCommand | Infrastructure/Clients/SshFileSystemClient.cs:61 | `mv -T "src" "dst"`; `SshCommands.MoveRunsOnce` shows no probe or `mkdir` of a move equals it |
| SshCommands.RemoveDirectoryCommand | Infrastructure/Clients/SshFileSystemClient.cs:70 | `rm -rf "p"`, the only command of `RemoveDirectory` |
| SshCommands.RemoveFileCommand | Infrastructure/Clients/SshFileSystemClient.cs:79 | `rm -f "p"`, the only command of `RemoveFile` |
| SshCommands.MakeParentCommand | Infrastructure/Clients/SshFileSystemClient.cs:153 | `umask 002 && mkdir -p "p" && umask 022`; `SshCommands.MakeParentCommandInjective` shows it names its directory unambiguously |
| SshCommands.ProbeSaysExists | Infrastructure/Clients/SshFileSystemClient.cs:169-170 | the probe's verdict: the trimmed output equals `EXISTS`; `SshCommands.ProbeSaysExistsExactly` characterises it as `EXISTS` padded only by white space |
| SshCommands.FolderExists | Infrastructure/Clients/SshFileSystemClient.cs:156-159 | the verdict of the `-d` probe on the remote host; `SshFileSystem.SshFileSystemClient.DoesFolderExist` proves the method returns it |
| SshCommands.FileExists | Infrastructure/Clients/SshFileSystemClient.cs:161-164 | the verdict of the `-f` probe on the remote host; `SshFileSystem.SshFileSystemClient.DoesFileExist` proves the method returns it |
| SshCommands.ProbeSaysExistsExactly | Infrastructure/Clients/SshFileSystemClient.cs:166-171 | a probe reports existence if and only if its output is `EXISTS` surrounded only by white space; anything else means "does not exist" |
| SshCommands.ProbeAnswers | Infrastructure/Clients/SshFileSystemClient.cs:168-170 | the `EXISTS` echo reads as existing; the `NOT_EXISTS` echo and empty output read as not existing |
| SshCommands.CommandOutcome | Infrastructure/Clients/SshFileSystemClient.cs:107-115 | the command fails exactly when standard error is non-empty, with an `SshException` carrying that text verbatim |
| SshCommands.GetDirectoryName | Infrastructure/Clients/SshFileSystemClient.cs:123 | `Path.GetDirectoryName` on Unix: null exactly for the empty path and the bare root; otherwise a proper prefix of the path |
| SshCommands.GetFileName | Infrastructure/Clients/SshFileSystemClient.cs:124 | `Path.GetFileName`: a suffix of the path holding no `/`, preceded by a `/` unless it is the whole path |
| SshCommands.DirectoryKey | Infrastructure/Clients/SshFileSystemClient.cs:123 | the directory name with backslashes turned into `/`, or the empty string for null; `SshCommands.SplitsAtLastSlash` shows it is the part before the last `/` |
| SshCommands.SplitsAtLastSlash | Infrastructure/Clients/SshFileSystemClient.cs:123-124 | for `dir/name` the dictionary key is `dir` and the file name is `name` |
| SshCommands.ListedPaths | Infrastructure/Clients/SshFileSystemClient.cs:131-134 | the lines of `find`'s output with empty ones dropped; stated by `SshCommands.ListedPathsAreTheLines` and `SshCommands.ListedPathsOfLines` |
| SshCommands.ListedPathsOfLines | Infrastructure/Clients/SshFileSystemClient.cs:129-143 | output made of non-empty, break-free lines joined by `\n` is listed as exactly those lines, so the line boundaries are kept |
| SshCommands.ListedPathsAreTheLines | Infrastructure/Clients/SshFileSystemClient.cs:129-143 | `GetAllPaths` and `GetFiles` return exactly the non-empty lines of the `find` output, each free of line breaks, in their original order |
| SshCommands.ListedPathsExample | Infrastructure/Clients/SshFileSystemClient.cs:129-135 | empty output gives no paths; blank lines are dropped and the order is kept |
| SshCommands.GroupByDirectory | Infrastructure/Clients/SshFileSystemClient.cs:121-126 | every dictionary key is non-empty and every file name in every group is non-empty |
| SshCommands.GroupByDirectoryAt | Infrastructure/Clients/SshFileSystemClient.cs:121-126 | for one key: present if and only if non-empty and the directory of some line; its group is the reference definition |
| SshCommands.GroupByDirectoryCorrect | Infrastructure/Clients/SshFileSystemClient.cs:117-127 | a key is present if and only if it is a non-empty directory of some line; each group equals the reference definition, that directory's non-empty file names in line order |
| SshCommands.LibraryPaths | Infrastructure/Clients/SshFileSystemClient.cs:119-126 | the grouping of `find`'s non-empty lines by directory; stated by `SshCommands.GroupByDirectoryCorrect` and the examples below |
| SshCommands.GroupTwoFiles | Infrastructure/Clients/SshFileSystemClient.cs:121-126 | two files of one directory are grouped under that directory, in order |
| SshCommands.TwoLines | Infrastructure/Clients/SshFileSystemClient.cs:120 | two non-empty lines joined by one line break are read back as those two lines |
| SshCommands.LibraryPathsTwoFiles | Infrastructure/Clients/SshFileSystemClient.cs:117-127 | the output listing `dir/first` and `dir/second` is read as the single group `dir` holding `[first, second]`, in order |
| SshCommands.LibraryPathsExample | Infrastructure/Clients/SshFileSystemClient.cs:117-127 | `"/lib/x/file1\n/lib/x/file2"` is read as `{"/lib/x": ["file1", "file2"]}` |
| SshCommands.LibraryPathsEmpty | Infrastructure/Clients/SshFileSystemClient.cs:117-127 | empty output is read as the empty dictionary, not an error |
| SshCommands.ParentPathCommands | Infrastructure/Clients/SshFileSystemClient.cs:145-154 | the commands of `CreateDestinationParentPath`: the folder probe, the file probe only if the folder is missing, and `mkdir` only if both are missing, nothing for an empty parent; stated by `SshCommands.ParentPathCreatesOnlyWhenMissing` |
| SshCommands.ParentPathOutcome | Infrastructure/Clients/SshFileSystemClient.cs:145-154 | the parent step's result: the `mkdir` verdict when the parent is missing, success otherwise; stated by `SshCommands.ParentPathCreatesOnlyWhenMissing` |
| SshCommands.MoveCommands | Infrastructure/Clients/SshFileSystemClient.cs:55-61 | the commands of `Move`: the source probes, then, if the source exists, the parent step and `mv` unless that step failed; stated by `SshCommands.MoveGatedOnSource`, `SshCommands.MoveAfterParent` and `SshCommands.MoveRunsOnce` |
| SshCommands.SourceExists | Infrastructure/Clients/SshFileSystemClient.cs:55 | the source exists as a file or as a folder; `SshCommands.MoveGatedOnSource` shows a source that does not is never moved |
| SshCommands.SourceProbes | Infrastructure/Clients/SshFileSystemClient.cs:55 | the `-f` probe, then the `-d` probe only when `-f` misses, as `\|\|` short-circuits; `SshFileSystem.SshFileSystemClient.ProbeSource` proves the method issues them |
| SshCommands.PlaceCommands | Infrastructure/Clients/SshFileSystemClient.cs:60-61 | the parent step, then `mv` only if that step succeeded; stated by `SshCommands.MoveAfterParent` and `SshCommands.MoveRunsOnce` |
| SshCommands.PlaceOutcome | Infrastructure/Clients/SshFileSystemClient.cs:60-61 | the parent step's failure, or else the verdict of `mv`; stated by `SshCommands.MoveAfterParent` |
| SshCommands.MoveOutcome | Infrastructure/Clients/SshFileSystemClient.cs:55-61 | `Move`'s result: the `IOException` for a missing source, else the parent step's failure, else the verdict of `mv`; stated by the same lemmas |
| SshCommands.CommandsDiffer | Infrastructure/Clients/SshFileSystemClient.cs:153-168 | a `mkdir` command is never a probe, and `mv` is neither a probe nor a `mkdir` |
| SshCommands.MakeParentCommandInjective | Infrastructure/Clients/SshFileSystemClient.cs:153 | the `mkdir -p` command names its directory unambiguously |
| SshCommands.ParentPathCreatesOnlyWhenMissing | Infrastructure/Clients/SshFileSystemClient.cs:145-154 | `mkdir -p` is issued, on the parent and last, if and only if the parent is non-empty and exists neither as a folder nor as a file; otherwise the step succeeds after probes only |
| SshCommands.MoveGatedOnSource | Infrastructure/Clients/SshFileSystemClient.cs:55-58 | when the source is neither file nor folder, `Move` fails with the `IOException` after the two probes, with no `mkdir` and no `mv` |
| SshCommands.MoveAfterParent | Infrastructure/Clients/SshFileSystemClient.cs:55-61 | otherwise the parent step runs first and `mv -T "src" "dst"` runs last; if the parent step fails, nothing is moved and that failure propagates |
| SshCommands.MoveRunsOnce | Infrastructure/Clients/SshFileSystemClient.cs:55-61 | no probe and no `mkdir` before the final `mv` is that `mv`, so with `SshCommands.MoveAfterParent` the move runs exactly once |
| SshFileSystem.Opening | Infrastructure/Clients/SshFileSystemClient.cs:88-91 | a `Connect` event exactly when the connection was down; `SshFileSystem.SshFileSystemClient.OpenConnection` proves the method logs it |
| SshFileSystem.Bracketed | Infrastructure/Clients/SshFileSystemClient.cs:84-105 | one public operation's trace: connect if needed, the commands in order, then one `Disconnect`; the listing, move and remove methods prove their logs equal it |
| SshFileSystem.SshClientWrapper.Connect | Infrastructure/Clients/SshFileSystemClient.cs:90 | the client becomes connected and the connection is logged |
| SshFileSystem.SshClientWrapper.Disconnect | Infrastructure/Clients/SshFileSystemClient.cs:101 | the client becomes disconnected and the disconnection is logged |
| SshFileSystem.SshClientWrapper.RunCommand | Infrastructure/Clients/SshFileSystemClient.cs:119 | issues the command while connected and returns its standard output |
| SshFileSystem.SshClientWrapper.Execute | Infrastructure/Clients/SshFileSystemClient.cs:109-110 | issues the command while connected and returns both of its streams |
| SshFileSystem.SshFileSystemClient.constructor | Infrastructure/Clients/SshFileSystemClient.cs:7 | the client wraps the given connection |
| SshFileSystem.SshFileSystemClient.OpenConnection | Infrastructure/Clients/SshFileSystemClient.cs:88-91 | leaves the client connected, logging `Connect` only if it was not connected already |
| SshFileSystem.SshFileSystemClient.CloseConnection | Infrastructure/Clients/SshFileSystemClient.cs:97-103 | leaves the client disconnected, disconnecting only if connected |
| SshFileSystem.SshFileSystemClient.RunCommand | Infrastructure/Clients/SshFileSystemClient.cs:107-115 | issues exactly the command, and its outcome is `CommandOutcome` of the reply |
| SshFileSystem.SshFileSystemClient.DoesPathExist | Infrastructure/Clients/SshFileSystemClient.cs:166-171 | issues exactly the probe command for the descriptor and returns whether its trimmed output is `EXISTS` |
| SshFileSystem.SshFileSystemClient.DoesFolderExist | Infrastructure/Clients/SshFileSystemClient.cs:156-159 | the `-d` probe |
| SshFileSystem.SshFileSystemClient.DoesFileExist | Infrastructure/Clients/SshFileSystemClient.cs:161-164 | the `-f` probe |
| SshFileSystem.SshFileSystemClient.GetLibraryPaths | Infrastructure/Clients/SshFileSystemClient.cs:117-127 | issues `find "p" -type f` only and returns the grouping of its output |
| SshFileSystem.SshFileSystemClient.GetAllPaths | Infrastructure/Clients/SshFileSystemClient.cs:129-135 | issues `find "p" -type d` only and returns the listed lines of its output |
| SshFileSystem.SshFileSystemClient.GetFiles | Infrastructure/Clients/SshFileSystemClient.cs:137-143 | issues `find "p" -type f -maxdepth 1` only and returns the listed lines of its output |
| SshFileSystem.SshFileSystemClient.CreateDestinationParentPath | Infrastructure/Clients/SshFileSystemClient.cs:145-154 | issues exactly the short-circuiting probe and `mkdir` sequence of `ParentPathCommands`, with the matching outcome |
| SshFileSystem.SshFileSystemClient.DescribeDirectory | Infrastructure/Clients/SshFileSystemClient.cs:11-23 | if the folder exists: connect-if-needed, probe, `find`, disconnect, and return the grouping; otherwise a `DirectoryNotFoundException` with no `find` issued. Either way the client ends disconnected |
| SshFileSystem.SshFileSystemClient.ListDirectoriesIn | Infrastructure/Clients/SshFileSystemClient.cs:25-36 | the same gating for `find -type d`, returning its lines |
| SshFileSystem.SshFileSystemClient.ListFilesIn | Infrastructure/Clients/SshFileSystemClient.cs:38-49 | the same gating for `find -type f -maxdepth 1`, returning its lines |
| SshFileSystem.SshFileSystemClient.ProbeSource | Infrastructure/Clients/SshFileSystemClient.cs:55 | probes the source as a file, and as a folder only if it is not a file; returns whether it exists as either |
| SshFileSystem.SshFileSystemClient.Place | Infrastructure/Clients/SshFileSystemClient.cs:60-61 | runs the parent step, then `mv` only if that step succeeded, with the matching outcome |
| SshFileSystem.SshFileSystemClient.MoveAction | Infrastructure/Clients/SshFileSystemClient.cs:53-63 | issues exactly `MoveCommands` and ends with `MoveOutcome` |
| SshFileSystem.SshFileSystemClient.Move | Infrastructure/Clients/SshFileSystemClient.cs:51-64 | the same, bracketed by connect-if-needed and a final disconnect, leaving the client disconnected whether it fails or succeeds |
| SshFileSystem.SshFileSystemClient.RemoveDirectory | Infrastructure/Clients/SshFileSystemClient.cs:66-73 | only `rm -rf "p"` is issued, with no probe, bracketed; the outcome is its standard-error verdict |
| SshFileSystem.SshFileSystemClient.RemoveFile | Infrastructure/Clients/SshFileSystemClient.cs:75-82 | only `rm -f "p"` is issued, with no probe, bracketed; the outcome is its standard-error verdict |
| Agents.Agent.constructor | Domain/Agents/AgentResolver.cs:25-40 | an agent holds the tools, depth and search flag it was built with |
| Agents.CacheKey | Domain/Agents/AgentResolver.cs:47 | the key `"IAgent"` followed by the decimal id; `Agents.CacheKeyInjective` shows distinct ids get distinct keys |
| Agents.CacheKeyInjective | Domain/Agents/AgentResolver.cs:47 | distinct message ids never share a cache key |
| Agents.Live | Domain/Agents/AgentResolver.cs:49-55 | an entry is live strictly before its absolute expiry; `Agents.GetAgentFromCache` and `Agents.LookupAfterAssociate` state the hit and miss conditions through it |
| Agents.GetAgentFromCache | Domain/Agents/AgentResolver.cs:53-61 | no lookup for a null id; a hit exactly when the id's key holds an unexpired entry, giving that entry's agent |
| Agents.Associated | Domain/Agents/AgentResolver.cs:45-51 | the cache with the id's key set to the agent and the expiry `now + RetentionTtl`; stated by `Agents.LookupAfterAssociate` |
| Agents.LookupAfterAssociate | Domain/Agents/AgentResolver.cs:45-55 | after an association the id yields that agent (last writer wins) strictly before now + TTL and nothing from then on; every other id is looked up as before |
| Agents.AgentResolver.constructor | Domain/Agents/AgentResolver.cs:18 | the resolver starts over an empty cache |
| Agents.AgentResolver.Resolve | Domain/Agents/AgentResolver.cs:21-43 | a live hit returns that same agent whatever the type. On a miss, `Download` gives a new agent with the seven tools in source order, depth 10 and search off, and any other type raises `ArgumentException("Unknown agent type: …")`. The cache is never written |
| Agents.AgentResolver.AssociateMessageToAgent | Domain/Agents/AgentResolver.cs:45-51 | the cache becomes the old cache with the id's key overwritten by (agent, now + TTL) |
| ChatMonitor.ReferencedMessageId | Domain/Monitor/ChatMonitor.cs:38-40 | the lookup id is null exactly when the prompt replies to nothing; otherwise it is the replied-to id plus the sender's hash, wrapping |
| ChatMonitor.StoredMessageId | Domain/Monitor/ChatMonitor.cs:49 | the id a delivered reply is associated under, the sent id plus the sender's hash, wrapping; `ChatMonitor.KeySymmetry` shows it is a later reply's lookup id |
| ChatMonitor.KeySymmetry | Domain/Monitor/ChatMonitor.cs:38-49 | the id stored after sending `m` equals the lookup id of a later reply to `m` with the same sender hash |
| ChatMonitor.AssociateAll | Domain/Monitor/ChatMonitor.cs:44-55 | the cache after the loop's associations, in send order; stated by `ChatMonitor.AssociateAllRoutesToAgent` and `ChatMonitor.AssociateAllKeepsOthers` |
| ChatMonitor.AssociateOne | Domain/Monitor/ChatMonitor.cs:46-54 | one iteration's effect on the cache: none for a failed send, else the association of the stored id; `ChatMonitor.ChatMonitor.Respond` proves the method has it |
| ChatMonitor.AssociateAllRoutesToAgent | Domain/Monitor/ChatMonitor.cs:44-55 | after the loop, every delivered reply's stored id yields the task's agent, if and only if the lookup is before the expiry |
| ChatMonitor.AssociateAllKeepsOthers | Domain/Monitor/ChatMonitor.cs:44-55 | ids under which no delivered reply was stored, failed sends included, are looked up as before the loop |
| ChatMonitor.ThreadContinuity | Domain/Monitor/ChatMonitor.cs:38-49 | a later reply by the same sender to any delivered reply is resolved, before expiry, to the very agent that produced it |
| ChatMonitor.ToolMessage | Domain/Monitor/ChatMonitor.cs:66 | the tool calls' texts joined by `\n`; `ChatMonitor.ToolMessageSplitsBack` shows single-line calls can be read back from it |
| ChatMonitor.ToolMessageSplitsBack | Domain/Monitor/ChatMonitor.cs:66 | single-line tool calls can be read back from the `'\n'`-joined summary |
| ChatMonitor.FormatReply | Domain/Monitor/ChatMonitor.cs:66-73 | the reply text: two expandable block quotes, the first holding the sanitized first 1900 characters of the content, the second the stop reason and the sanitized first 1900 characters of the tool summary; stated by `ChatMonitor.ReplyShowsOnlyTheCappedBlocks` and `ChatMonitor.ToolMessageSplitsBack` |
| ChatMonitor.ReplyShowsOnlyTheCappedBlocks | Domain/Monitor/ChatMonitor.cs:66-73 | responses with the same stop reason whose content, and whose tool summaries, agree on their first 1900 characters get the same reply |
| ChatMonitor.CappedAgree | Domain/Monitor/ChatMonitor.cs:68-72 | texts that are equal, or share their first `n` characters and are both at least that long, give the same `Left(n)` block |
| ChatMonitor.Replies | Domain/Monitor/ChatMonitor.cs:74 | one reply per response, each to the prompt's chat as a reply to the prompt's message |
| ChatMonitor.ChatClient.SendResponse | Domain/Monitor/ChatMonitor.cs:74 | appends the message to what was sent and returns the outcome of that send |
| ChatMonitor.TaskQueue.QueueTask | Domain/Monitor/ChatMonitor.cs:23 | appends the prompt's task to the queue |
| ChatMonitor.ChatMonitor.Monitor | Domain/Monitor/ChatMonitor.cs:16-30 | queues exactly one task per prompt, in stream order; a stream fault is logged and not rethrown |
| ChatMonitor.ChatMonitor.ProcessResponse | Domain/Monitor/ChatMonitor.cs:63-75 | sends the formatted reply to the prompt's chat as a reply to the prompt and returns the send's outcome |
| ChatMonitor.ChatMonitor.Respond | Domain/Monitor/ChatMonitor.cs:46-54 | one loop iteration: associates the sent id plus the hash with the agent only if the send succeeded |
| ChatMonitor.ChatMonitor.AgentTask | Domain/Monitor/ChatMonitor.cs:32-61 | resolves the Download agent by the referenced id: the cached agent on a hit, a new one on a miss. Sends a reply for every response, failed sends included. Associates exactly the delivered ids, in order, with that agent |
| MoveTool.InLibrary | Domain/Tools/MoveTool.cs:32-33 | the ordinal `StartsWith(libraryPath)` test; `MoveTool.GuardIsPlainPrefix` and `MoveTool.MovesOnlyInsideLibrary` state what passes it |
| MoveTool.OutsideLibraryMessage | Domain/Tools/MoveTool.cs:35-39 | the `ArgumentException` text, ending with the library path; `MoveTool.Run` proves it is the failure for a path outside the library |
| MoveTool.Moved | Domain/Tools/MoveTool.cs:43-49 | the success envelope; `MoveTool.SuccessEchoesPaths` shows its status is `"success"` and it echoes both paths |
| MoveTool.Run | Domain/Tools/MoveTool.cs:28-50 | if either path lacks the library prefix, `ArgumentException` and no `Move` call. Otherwise exactly one `Move` with both paths unchanged, then the success envelope, or `Move`'s failure propagated |
| MoveTool.MovesOnlyInsideLibrary | Domain/Tools/MoveTool.cs:32-42 | every `Move` the tool issues names the requested paths, both under the library path |
| MoveTool.SuccessEchoesPaths | Domain/Tools/MoveTool.cs:43-49 | a success has status `"success"` and echoes source and destination verbatim |
| MoveTool.GuardIsPlainPrefix | Domain/Tools/MoveTool.cs:32-33 | the library path itself and any sibling name extending it pass the guard |
| CleanupTool.DownloadPath | Domain/Tools/CleanupTool.cs:24 | the path starts with the base location followed by `/` |
| CleanupTool.DownloadPathNamesTheDownload | Domain/Tools/CleanupTool.cs:24 | the part after `base/` is exactly the decimal id, which parses back to the id |
| CleanupTool.DownloadPathExample | Domain/Tools/CleanupTool.cs:24 | download 42 under `/downloads` is removed from exactly `/downloads/42` |
| CleanupTool.DownloadPathInjective | Domain/Tools/CleanupTool.cs:24 | distinct downloads never share a directory |
| CleanupTool.Removed | Domain/Tools/CleanupTool.cs:29-34 | the success envelope; `CleanupTool.SuccessNamesTheDownload` shows its status is `"success"` and its `downloadId` is the input |
| CleanupTool.Run | Domain/Tools/CleanupTool.cs:21-35 | removes the download directory first. `Cleanup` is called, with the same id, if and only if that removal succeeded. Succeeds only if both succeed, and otherwise propagates the first failure |
| CleanupTool.SuccessNamesTheDownload | Domain/Tools/CleanupTool.cs:29-34 | a success has status `"success"` and `downloadId` equal to the input |
| CleanupTool.GetToolDefinition | Domain/Tools/CleanupTool.cs:37-47 | the definition's name is `Name`, `"Cleanup"` |

## Left out
- The SSH transport (Renci.SshNet) is left out: the connection is a flag, a log and a fixed reply per command text. `mv`, `rm`, `find` and shell quoting are not modelled, only the command strings.
- `ISshClientWrapper.RunCommand` is modelled as returning standard output without inspecting standard error, which is how the client uses it. The wrapper's own code is not part of this model.
- The `lock` in `ConnectionWrapper` is left out, along with all `Task`/`async` plumbing and cancellation tokens; the model is sequential. `ConnectionWrapper` takes a lambda, so it is written out as `OpenConnection` and `CloseConnection` around each operation's body.
- SshCommands.GetDirectoryName: follows the Unix algorithm of `Path.GetDirectoryName`, which finds the root, the last `/` and the separators before it. It leaves out the later collapse of repeated separators, so for paths containing `//` the model keeps the separators that .NET removes.
- `IMemoryCache` is a plain map, with no eviction other than the absolute expiry. The resolver's cache starts out empty instead of being injected and shared.
- `DateTimeOffset.UtcNow.AddMonths(2)` is taken as `now` plus 61 days (`RetentionTtl`). The clock is a parameter, read once per agent task.
- The agent's prompt messages, its language model and its logger are left out, and so is `Agent.Run`. The responses an agent run yields are given as a sequence; a run that throws is the shorter sequence it produced before throwing.
- `String.GetHashCode` and `HtmlSanitize` are opaque functions held by the monitor, and tool calls are given as their `ToString()` text.
- `TaskQueue` is an appended list. Its execution, DI scopes, `ReadPrompts` polling and logging are left out; the prompts read before the stream ended are a sequence.
- Culture-sensitive `StartsWith` is treated as ordinal.
- SshCommands.GroupByDirectory: returns a `map`, so the enumeration order of the dictionary `ToDictionary` builds in `GetLibraryPaths` is not modelled. The order of the file names within each directory is modelled.
- Text.Left: counts Unicode scalar values, because a Dafny `string` is a sequence of them, while .NET counts UTF-16 code units. For text outside the Basic Multilingual Plane the model keeps more: of 1900 emoji it keeps all, where .NET keeps 950. The `Left` extension comes from `Domain.Extensions`, which is not part of this model; it is taken to be the length-capped prefix.
- Agents.AgentResolver.Resolve: the message interpolates the `AgentType` enum, which .NET renders by member name for a named member and as its number otherwise. The enum's declaration is not part of this model, so the model always writes the number; the text is exact only for values that name no member.
- Text.IntToString: string interpolation formats with the current culture. The model assumes a culture whose negative sign is `-`; cultures with another minus sign are not modelled.
- `ParseParams` and `BaseTool` JSON parsing are left out: the tools receive their parameters already parsed.
- The client and download calls the tools make on their collaborators are parameters that say how each call ends.
- Exceptions thrown from code the model cannot see are any `Fault`.
