/** The agent registry (Domain/Agents/AgentResolver.cs): a shared cache from
    `"IAgent{id}"` keys to agents with an absolute expiry. Resolving looks
    the message id up and, on a miss, builds a new download agent without
    registering it; associating a message id with an agent overwrites the
    key's entry with a fresh expiry. */
module Agents {
  import opened Common
  import opened Text

  /** `AgentType`: only `Download` is known to the resolver; any other
      value of the enumeration is carried by its number. */
  datatype AgentType = Download | Other(code: int)

  /** The tools the resolver wires into a download agent. */
  datatype ToolKind =
    | FileSearch | FileDownload | WaitForDownload | ListDirectories | ListFiles | Move | Cleanup

  const DownloadTools: seq<ToolKind> :=
    [FileSearch, FileDownload, WaitForDownload, ListDirectories, ListFiles, Move, Cleanup]

  const DownloadMaxDepth: nat := 10

  /** Seconds of `AddMonths(2)`, taken as 61 days. */
  const RetentionTtl: int := 61 * 24 * 60 * 60

  /** An agent: what matters here is its identity and its configuration;
      its transcript and reasoning belong to the language model. */
  class Agent {
    const tools: seq<ToolKind>
    const maxDepth: nat
    const enableSearch: bool

    constructor (tools: seq<ToolKind>, maxDepth: nat, enableSearch: bool)
      ensures this.tools == tools && this.maxDepth == maxDepth && this.enableSearch == enableSearch
    {
      this.tools := tools;
      this.maxDepth := maxDepth;
      this.enableSearch := enableSearch;
    }
  }

  /** A cache entry and the instant from which it is expired. */
  datatype CacheEntry = CacheEntry(agent: Agent, expiresAt: int)

  type Cache = map<string, CacheEntry>

  /** `$"IAgent{messageId}"`. */
  function CacheKey(messageId: int32): string {
    "IAgent" + IntToString(messageId as int)
  }

  /** Distinct message ids never share a cache entry. */
  lemma CacheKeyInjective(a: int32, b: int32)
    ensures CacheKey(a) == CacheKey(b) ==> a == b
  {
    if CacheKey(a) == CacheKey(b) {
      assert CacheKey(a)[6..] == IntToString(a as int);
      assert CacheKey(b)[6..] == IntToString(b as int);
      IntToStringInjective(a as int, b as int);
    }
  }

  /** An entry is live strictly before its absolute expiration. */
  predicate Live(entry: CacheEntry, now: int) {
    now < entry.expiresAt
  }

  /** `GetAgentFromCache`: no lookup for a null id; otherwise the agent of
      a live entry under the id's key. */
  function GetAgentFromCache(cache: Cache, sourceMessageId: Option<int32>, now: int): (r: Option<Agent>)
    ensures sourceMessageId.None? ==> r.None?
    ensures r.Some? <==>
      sourceMessageId.Some? && CacheKey(sourceMessageId.value) in cache
      && Live(cache[CacheKey(sourceMessageId.value)], now)
    ensures r.Some? ==> r.value == cache[CacheKey(sourceMessageId.value)].agent
  {
    if sourceMessageId.Some? && CacheKey(sourceMessageId.value) in cache
       && Live(cache[CacheKey(sourceMessageId.value)], now)
    then Some(cache[CacheKey(sourceMessageId.value)].agent)
    else None
  }

  /** The cache after `AssociateMessageToAgent(messageId, agent)` at `now`. */
  function Associated(cache: Cache, messageId: int32, agent: Agent, now: int): Cache {
    cache[CacheKey(messageId) := CacheEntry(agent, now + RetentionTtl)]
  }

  /** After an association, the id leads to that agent, last writer
      winning, until the expiry instant and not from then on; every other
      id is looked up as before. */
  lemma LookupAfterAssociate(cache: Cache, messageId: int32, agent: Agent, now: int, id: Option<int32>, later: int)
    ensures id == Some(messageId) ==>
      (GetAgentFromCache(Associated(cache, messageId, agent, now), id, later) == Some(agent)
       <==> later < now + RetentionTtl)
    ensures id != Some(messageId) ==>
      GetAgentFromCache(Associated(cache, messageId, agent, now), id, later) == GetAgentFromCache(cache, id, later)
  {
    if id.Some? {
      CacheKeyInjective(id.value, messageId);
    }
  }

  /** `IAgentResolver` over the in-memory cache. */
  class AgentResolver {
    var cache: Cache

    constructor ()
      ensures cache == map[]
    {
      cache := map[];
    }

    /** `Resolve`: the cached agent on a live hit, whatever the requested
        type; on a miss a new download agent (not registered), or an
        `ArgumentException` for any other type. The cache is read, never
        written. */
    method Resolve(agentType: AgentType, sourceMessageId: Option<int32>, now: int) returns (r: Result<Agent, Fault>)
      ensures GetAgentFromCache(cache, sourceMessageId, now).Some? ==>
        r == Success(GetAgentFromCache(cache, sourceMessageId, now).value)
      ensures GetAgentFromCache(cache, sourceMessageId, now).None? && agentType == Download ==>
        && r.Success? && fresh(r.value)
        && r.value.tools == DownloadTools && r.value.maxDepth == DownloadMaxDepth && !r.value.enableSearch
      ensures GetAgentFromCache(cache, sourceMessageId, now).None? && agentType.Other? ==>
        r == Failure(ArgumentError("Unknown agent type: " + IntToString(agentType.code)))
    {
      var cached := GetAgentFromCache(cache, sourceMessageId, now);
      if cached.Some? {
        return Success(cached.value);
      }
      match agentType
      case Download =>
        var agent := new Agent(DownloadTools, DownloadMaxDepth, false);
        return Success(agent);
      case Other(code) =>
        return Failure(ArgumentError("Unknown agent type: " + IntToString(code)));
    }

    /** `AssociateMessageToAgent`: sets (overwrites) the entry for the
        message id, expiring `RetentionTtl` after `now`. */
    method AssociateMessageToAgent(messageId: int32, agent: Agent, now: int)
      modifies this
      ensures cache == Associated(old(cache), messageId, agent, now)
    {
      cache := Associated(cache, messageId, agent, now);
    }
  }
}
