/** The chat dispatcher (Domain/Monitor/ChatMonitor.cs), run sequentially:
    `Monitor` queues one agent task per incoming prompt; an agent task
    derives the lookup id from the replied-to message and the sender,
    resolves the agent, sends one formatted reply per agent response and
    associates each sent reply's id, combined with the sender, with that
    same agent, so a later reply to it continues the conversation. */
module ChatMonitor {
  import opened Common
  import opened Text
  import opened Agents

  /** `ChatPrompt`: one incoming chat message. */
  datatype ChatPrompt = ChatPrompt(
    prompt: string,
    chatId: int,
    messageId: int32,
    sender: string,
    replyToMessageId: Option<int32>)

  /** `AgentResponse`: one round of the agent, its tool calls already
      rendered as text. */
  datatype AgentResponse = AgentResponse(content: string, stopReason: string, toolCalls: seq<string>)

  /** A reply handed to the chat transport. */
  datatype OutgoingMessage = OutgoingMessage(chatId: int, text: string, replyToMessageId: int32)

  const MaxBlockLength: nat := 1900

  // ---------------------------------------------------------------------
  // Correlation of replies with agents

  /** The id `AgentTask` looks the agent up by: null for a fresh message,
      otherwise the replied-to id plus the sender's hash (C# `int`
      arithmetic, so wrapping). */
  function ReferencedMessageId(prompt: ChatPrompt, senderHash: int32): (r: Option<int32>)
    ensures r.None? <==> prompt.replyToMessageId.None?
    ensures r.Some? ==> r.value == WrappingAdd(prompt.replyToMessageId.value, senderHash)
  {
    match prompt.replyToMessageId
    case None => None
    case Some(replied) => Some(WrappingAdd(replied, senderHash))
  }

  /** The id a sent reply is associated under. */
  function StoredMessageId(sentMessageId: int32, senderHash: int32): int32 {
    WrappingAdd(sentMessageId, senderHash)
  }

  /** The id stored after sending message `m` is the id a later reply to
      `m` by the same sender is looked up by. */
  lemma KeySymmetry(reply: ChatPrompt, sentMessageId: int32, senderHash: int32)
    requires reply.replyToMessageId == Some(sentMessageId)
    ensures ReferencedMessageId(reply, senderHash) == Some(StoredMessageId(sentMessageId, senderHash))
  {
  }

  /** The cache after associating, in order, every delivered reply id
      (`None` for a send that failed) with `agent`. */
  function AssociateAll(cache: Cache, sentIds: seq<Option<int32>>, senderHash: int32, agent: Agent, now: int): Cache
    decreases |sentIds|
  {
    if sentIds == [] then cache
    else
      AssociateOne(AssociateAll(cache, sentIds[..|sentIds| - 1], senderHash, agent, now),
                   sentIds[|sentIds| - 1], senderHash, agent, now)
  }

  /** The cache after one send: unchanged when it failed. */
  function AssociateOne(cache: Cache, sentId: Option<int32>, senderHash: int32, agent: Agent, now: int): Cache {
    match sentId
    case None => cache
    case Some(id) => Associated(cache, StoredMessageId(id, senderHash), agent, now)
  }

  /** Every delivered reply's stored id leads to the agent until the
      expiry instant, and to nothing from then on. */
  lemma {:induction false} AssociateAllRoutesToAgent(
    cache: Cache, sentIds: seq<Option<int32>>, senderHash: int32, agent: Agent, now: int, k: nat, later: int)
    requires k < |sentIds| && sentIds[k].Some?
    ensures GetAgentFromCache(AssociateAll(cache, sentIds, senderHash, agent, now),
                              Some(StoredMessageId(sentIds[k].value, senderHash)), later) == Some(agent)
            <==> later < now + RetentionTtl
    decreases |sentIds|
  {
    var last := |sentIds| - 1;
    var init := sentIds[..last];
    var id := Some(StoredMessageId(sentIds[k].value, senderHash));
    var earlier := AssociateAll(cache, init, senderHash, agent, now);
    var whole := AssociateAll(cache, sentIds, senderHash, agent, now);
    if k < last {
      assert init[k] == sentIds[k];
      AssociateAllRoutesToAgent(cache, init, senderHash, agent, now, k, later);
    }
    match sentIds[last]
    case None =>
      assert whole == earlier;
    case Some(m) =>
      var stored := StoredMessageId(m, senderHash);
      assert whole == Associated(earlier, stored, agent, now);
      LookupAfterAssociate(earlier, stored, agent, now, id, later);
  }

  /** Ids that no delivered reply was stored under are looked up as
      before: a failed send associates nothing. */
  lemma {:induction false} AssociateAllKeepsOthers(
    cache: Cache, sentIds: seq<Option<int32>>, senderHash: int32, agent: Agent, now: int, id: int32, later: int)
    requires forall k :: 0 <= k < |sentIds| && sentIds[k].Some? ==> StoredMessageId(sentIds[k].value, senderHash) != id
    ensures GetAgentFromCache(AssociateAll(cache, sentIds, senderHash, agent, now), Some(id), later)
            == GetAgentFromCache(cache, Some(id), later)
    decreases |sentIds|
  {
    if sentIds != [] {
      var last := |sentIds| - 1;
      var init := sentIds[..last];
      assert forall k :: 0 <= k < |init| ==> init[k] == sentIds[k];
      AssociateAllKeepsOthers(cache, init, senderHash, agent, now, id, later);
      match sentIds[last]
      case None =>
      case Some(m) =>
        LookupAfterAssociate(AssociateAll(cache, init, senderHash, agent, now),
                             StoredMessageId(m, senderHash), agent, now, Some(id), later);
    }
  }

  /** Thread continuity: a later reply, by the same sender, to any reply
      that was delivered is resolved to the very agent that produced it,
      as long as the entry has not expired. */
  lemma ThreadContinuity(
    cache: Cache, sentIds: seq<Option<int32>>, hash: string -> int32, prompt: ChatPrompt,
    agent: Agent, now: int, k: nat, followUp: ChatPrompt, later: int)
    requires k < |sentIds| && sentIds[k].Some?
    requires followUp.replyToMessageId == Some(sentIds[k].value)
    requires followUp.sender == prompt.sender
    requires later < now + RetentionTtl
    ensures GetAgentFromCache(AssociateAll(cache, sentIds, hash(prompt.sender), agent, now),
                              ReferencedMessageId(followUp, hash(followUp.sender)), later) == Some(agent)
  {
    KeySymmetry(followUp, sentIds[k].value, hash(prompt.sender));
    AssociateAllRoutesToAgent(cache, sentIds, hash(prompt.sender), agent, now, k, later);
  }

  // ---------------------------------------------------------------------
  // Reply text

  /** The tool-call summary: the rendered tool calls joined by '\n'. */
  function ToolMessage(toolCalls: seq<string>): string {
    Join(toolCalls, '\n')
  }

  /** The individual tool calls can be read back from the summary when none
      of them spans several lines. */
  lemma ToolMessageSplitsBack(toolCalls: seq<string>)
    requires toolCalls != []
    requires forall k :: 0 <= k < |toolCalls| ==> '\n' !in toolCalls[k]
    ensures Split(ToolMessage(toolCalls), '\n') == toolCalls
  {
    SplitJoin(toolCalls, '\n');
  }

  /** `ProcessResponse`'s message: the content and the tool-call summary,
      each cut to `MaxBlockLength` characters and then sanitized, in two
      expandable block quotes, the second also naming the stop reason. */
  function FormatReply(response: AgentResponse, sanitize: string -> string): string {
    "<blockquote expandable>"
    + sanitize(Left(response.content, MaxBlockLength))
    + "</blockquote>"
    + "<blockquote expandable>"
    + "<pre><code>StopReason=" + response.stopReason + "</code>\n\n"
    + "<code class=\"language-json\">" + sanitize(Left(ToolMessage(response.toolCalls), MaxBlockLength)) + "</code></pre>"
    + "</blockquote>"
  }

  /** Only the first `MaxBlockLength` characters of the content and of the
      summary reach the chat: responses that agree on those and on the stop
      reason get the same reply. */
  lemma ReplyShowsOnlyTheCappedBlocks(a: AgentResponse, b: AgentResponse, sanitize: string -> string)
    requires AgreeUpTo(a.content, b.content, MaxBlockLength)
    requires AgreeUpTo(ToolMessage(a.toolCalls), ToolMessage(b.toolCalls), MaxBlockLength)
    requires a.stopReason == b.stopReason
    ensures FormatReply(a, sanitize) == FormatReply(b, sanitize)
  {
    CappedAgree(a.content, b.content, MaxBlockLength);
    CappedAgree(ToolMessage(a.toolCalls), ToolMessage(b.toolCalls), MaxBlockLength);
  }

  /** Two texts that cannot be told apart within their first `n`
      characters: equal, or both at least `n` long with the same first `n`. */
  predicate AgreeUpTo(s: string, t: string, n: nat) {
    s == t || (|s| >= n && |t| >= n && s[..n] == t[..n])
  }

  /** Texts that agree up to `n` characters are capped to the same block. */
  lemma CappedAgree(s: string, t: string, n: nat)
    requires AgreeUpTo(s, t, n)
    ensures Left(s, n) == Left(t, n)
  {
    if s != t {
      assert Left(s, n) == s[..n];
      assert Left(t, n) == t[..n];
    }
  }

  /** The replies `AgentTask` sends for a run of responses, in order: all to
      the prompt's chat, all as replies to the prompt. */
  function Replies(prompt: ChatPrompt, responses: seq<AgentResponse>, sanitize: string -> string): (r: seq<OutgoingMessage>)
    ensures |r| == |responses|
    ensures forall k :: 0 <= k < |r| ==>
      r[k].chatId == prompt.chatId && r[k].replyToMessageId == prompt.messageId
  {
    seq(|responses|, k requires 0 <= k < |responses| =>
      OutgoingMessage(prompt.chatId, FormatReply(responses[k], sanitize), prompt.messageId))
  }

  lemma RepliesSnoc(prompt: ChatPrompt, responses: seq<AgentResponse>, i: nat, sanitize: string -> string)
    requires i < |responses|
    ensures Replies(prompt, responses[..i + 1], sanitize)
         == Replies(prompt, responses[..i], sanitize) + [OutgoingMessage(prompt.chatId, FormatReply(responses[i], sanitize), prompt.messageId)]
  {
  }

  lemma DeliveriesSnoc(delivery: nat -> Option<int32>, start: nat, count: nat)
    ensures Deliveries(delivery, start, count + 1) == Deliveries(delivery, start, count) + [delivery(start + count)]
  {
  }

  lemma AssociateAllSnoc(cache: Cache, sentIds: seq<Option<int32>>, sentId: Option<int32>, senderHash: int32, agent: Agent, now: int)
    ensures AssociateAll(cache, sentIds + [sentId], senderHash, agent, now)
         == AssociateOne(AssociateAll(cache, sentIds, senderHash, agent, now), sentId, senderHash, agent, now)
  {
    assert (sentIds + [sentId])[..|sentIds|] == sentIds;
  }

  /** The outcomes of `count` consecutive sends, starting with send number
      `start`. */
  function Deliveries(delivery: nat -> Option<int32>, start: nat, count: nat): (r: seq<Option<int32>>)
    ensures |r| == count
  {
    seq(count, k requires 0 <= k < count => delivery(start + k))
  }

  // ---------------------------------------------------------------------
  // Collaborators and the monitor

  /** The chat transport's sending side. Sends are numbered in order; the
      `delivery` script says, for each, the id of the sent message, or
      `None` when sending throws. */
  class ChatClient {
    var sent: seq<OutgoingMessage>
    const delivery: nat -> Option<int32>

    constructor (delivery: nat -> Option<int32>)
      ensures this.delivery == delivery && sent == []
    {
      this.delivery := delivery;
      sent := [];
    }

    /** `SendResponse`: attempts one send. */
    method SendResponse(chatId: int, text: string, replyToMessageId: int32) returns (r: Option<int32>)
      modifies this
      ensures sent == old(sent) + [OutgoingMessage(chatId, text, replyToMessageId)]
      ensures r == delivery(|old(sent)|)
    {
      r := delivery(|sent|);
      sent := sent + [OutgoingMessage(chatId, text, replyToMessageId)];
    }
  }

  /** `TaskQueue`: the agent tasks waiting to run, one per prompt. */
  class TaskQueue {
    var pending: seq<ChatPrompt>

    constructor ()
      ensures pending == []
    {
      pending := [];
    }

    method QueueTask(prompt: ChatPrompt)
      modifies this
      ensures pending == old(pending) + [prompt]
    {
      pending := pending + [prompt];
    }
  }

  class ChatMonitor {
    const resolver: AgentResolver
    const chat: ChatClient
    const queue: TaskQueue
    /** `Sender.GetHashCode()`. */
    const senderHash: string -> int32
    /** The `HtmlSanitize` extension. */
    const sanitize: string -> string

    constructor (resolver: AgentResolver, chat: ChatClient, queue: TaskQueue,
                 senderHash: string -> int32, sanitize: string -> string)
      ensures this.resolver == resolver && this.chat == chat && this.queue == queue
      ensures this.senderHash == senderHash && this.sanitize == sanitize
    {
      this.resolver := resolver;
      this.chat := chat;
      this.queue := queue;
      this.senderHash := senderHash;
      this.sanitize := sanitize;
    }

    /** `Monitor`: queues one task per prompt of the stream, in stream
        order. `stream` holds the prompts read before the stream ended;
        `streamFault` says whether it ended with an exception, which is
        logged (the result) and not rethrown. */
    method Monitor(stream: seq<ChatPrompt>, streamFault: bool) returns (faultLogged: bool)
      modifies queue
      ensures queue.pending == old(queue.pending) + stream
      ensures faultLogged == streamFault
    {
      for i := 0 to |stream|
        invariant queue.pending == old(queue.pending) + stream[..i]
      {
        queue.QueueTask(stream[i]);
        assert stream[..i + 1] == stream[..i] + [stream[i]];
      }
      assert stream[..|stream|] == stream;
      faultLogged := streamFault;
    }

    /** `ProcessResponse`: formats one response and sends it to the
        prompt's chat as a reply to the prompt. */
    method ProcessResponse(prompt: ChatPrompt, response: AgentResponse) returns (messageId: Option<int32>)
      modifies chat
      ensures chat.sent == old(chat.sent) + [OutgoingMessage(prompt.chatId, FormatReply(response, sanitize), prompt.messageId)]
      ensures messageId == chat.delivery(|old(chat.sent)|)
    {
      messageId := chat.SendResponse(prompt.chatId, FormatReply(response, sanitize), prompt.messageId);
    }

    /** One iteration of `AgentTask`'s loop: send the reply, then associate
        its id when the send succeeded. */
    method Respond(prompt: ChatPrompt, response: AgentResponse, hash: int32, agent: Agent, now: int)
      modifies resolver, chat
      ensures chat.sent == old(chat.sent) + [OutgoingMessage(prompt.chatId, FormatReply(response, sanitize), prompt.messageId)]
      ensures resolver.cache == AssociateOne(old(resolver.cache), chat.delivery(|old(chat.sent)|), hash, agent, now)
    {
      var messageId := ProcessResponse(prompt, response);
      if messageId.Some? {
        resolver.AssociateMessageToAgent(StoredMessageId(messageId.value, hash), agent, now);
      }
    }

    /** `AgentTask`: resolves the agent for the prompt, then for every
        response sends a reply and, when the send succeeds, associates the
        sent id plus the sender's hash with that agent; a failed send is
        skipped and the loop goes on. `responses` is what the agent's run
        yields; `now` is the clock. */
    method AgentTask(prompt: ChatPrompt, responses: seq<AgentResponse>, now: int) returns (agent: Agent)
      modifies resolver, chat
      ensures var hit := GetAgentFromCache(old(resolver.cache), ReferencedMessageId(prompt, senderHash(prompt.sender)), now);
        && (hit.Some? ==> agent == hit.value)
        && (hit.None? ==> fresh(agent) && agent.tools == DownloadTools && agent.maxDepth == DownloadMaxDepth)
      ensures chat.sent == old(chat.sent) + Replies(prompt, responses, sanitize)
      ensures resolver.cache == AssociateAll(old(resolver.cache),
        Deliveries(chat.delivery, |old(chat.sent)|, |responses|), senderHash(prompt.sender), agent, now)
    {
      var hash := senderHash(prompt.sender);
      var referenced := ReferencedMessageId(prompt, hash);
      var resolved := resolver.Resolve(Download, referenced, now);
      agent := resolved.value;
      ghost var start := |chat.sent|;
      for i := 0 to |responses|
        invariant chat.sent == old(chat.sent) + Replies(prompt, responses[..i], sanitize)
        invariant resolver.cache == AssociateAll(old(resolver.cache), Deliveries(chat.delivery, start, i), hash, agent, now)
      {
        ghost var cacheBefore := resolver.cache;
        assert |chat.sent| == start + i;
        Respond(prompt, responses[i], hash, agent, now);
        DeliveriesSnoc(chat.delivery, start, i);
        AssociateAllSnoc(old(resolver.cache), Deliveries(chat.delivery, start, i), chat.delivery(start + i), hash, agent, now);
        RepliesSnoc(prompt, responses, i, sanitize);
      }
      assert responses[..|responses|] == responses;
    }
  }
}
