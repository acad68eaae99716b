/**
 Two readers of one thread log: `projectMessages` (packages/core/src/events.ts) builds the whole
 message list at once, `reduceThreadSnapshot` (apps/web/src/lib/thread-events.ts) updates a list event
 by event. Message ids are typed here instead of carrying the text prefixes "progress:" and
 "subagent:", and payload fields are already decoded.
 */
module ThreadView {
  import opened Wrappers

  datatype MessageId = ProgressId(key: string) | SubagentId(agentId: string) | DurableId(id: string)

  datatype SubagentStatus = SubagentRunning | SubagentCompleted | SubagentFailed

  datatype Block =
    | SubagentBlock(agentId: string, name: string, task: string, status: SubagentStatus,
                    progress: Option<string>, result: Option<string>)
    | ProgressBlock(text: string)
    | OtherBlock(content: string)

  datatype Message = Message(id: MessageId, seqNo: nat, role: string, blocks: seq<Block>,
                             runId: Option<string>, createdAt: string)

  datatype Payload =
    | MessageCreated(messageId: Option<string>, role: Option<string>, blocks: Option<seq<Block>>)
    | ProgressMade(delta: Option<string>, text: Option<string>)
    | SubagentUpdated(agentId: Option<string>, name: Option<string>, task: Option<string>, status: Option<string>,
                      progress: Option<string>, result: Option<string>)
    | RunEnded
    | OtherPayload

  datatype Event = Event(id: string, seqNo: nat, payload: Payload, runId: Option<string>, createdAt: string)

  function GetOr(o: Option<string>, default: string): string {
    if o.Some? then o.value else default
  }

  // ----- the shared helpers of core/events.ts ------------------------------------------------------

  function ProgressMessageId(e: Event): MessageId {
    ProgressId(GetOr(e.runId, e.id))
  }

  function ProgressMessageText(delta: Option<string>, text: Option<string>, previousText: string): string {
    if delta.Some? then previousText + delta.value else GetOr(text, "")
  }

  // An empty text counts as absent, as it does in a JavaScript condition.
  function Truthy(o: Option<string>): Option<string> {
    if o == Some("") then None else o
  }

  function SubagentBlockFrom(e: Event): (b: Block)
    requires e.payload.SubagentUpdated?
    ensures b.SubagentBlock?
  {
    var p := e.payload;
    SubagentBlock(GetOr(p.agentId, ""), GetOr(p.name, "subagent"), GetOr(p.task, ""),
                  if p.status == Some("completed") then SubagentCompleted
                  else if p.status == Some("failed") then SubagentFailed else SubagentRunning,
                  Truthy(p.progress), Truthy(p.result))
  }

  function BlocksOf(e: Event): seq<Block>
    requires e.payload.MessageCreated?
  {
    if e.payload.blocks.Some? then e.payload.blocks.value else []
  }

  function Agents(blocks: seq<Block>): set<string> {
    set b | b in blocks && b.SubagentBlock? :: b.agentId
  }

  function DurableMessage(e: Event): Message
    requires e.payload.MessageCreated?
  {
    var id := DurableId(GetOr(e.payload.messageId, e.id));
    Message(id, e.seqNo, GetOr(e.payload.role, "bot"), BlocksOf(e), e.runId, e.createdAt)
  }

  function BotMessage(e: Event, id: MessageId, block: Block): Message {
    Message(id, e.seqNo, "bot", [block], e.runId, e.createdAt)
  }

  // ----- the projection -----------------------------------------------------------------------------

  // `live` lists the live subagent messages in the order in which their agents first appeared.
  datatype Projection = Projection(messages: seq<Message>, streaming: Option<Message>, live: seq<Message>,
                                   durable: set<string>)

  // Map.set: an agent that is already there keeps its place.
  function SetLive(live: seq<Message>, m: Message): seq<Message> {
    if live == [] then [m]
    else if live[0].id == m.id then [m] + live[1..]
    else [live[0]] + SetLive(live[1..], m)
  }

  function DeleteLive(live: seq<Message>, agents: set<string>): seq<Message> {
    if live == [] then []
    else if live[0].id.SubagentId? && live[0].id.agentId in agents then DeleteLive(live[1..], agents)
    else [live[0]] + DeleteLive(live[1..], agents)
  }

  function StreamedText(streaming: Option<Message>, id: MessageId): string {
    if streaming.Some? && streaming.value.id == id && streaming.value.blocks != []
        && streaming.value.blocks[0].ProgressBlock?
    then streaming.value.blocks[0].text else ""
  }

  function ProjectEvent(p: Projection, e: Event): Projection {
    match e.payload
    case MessageCreated(_, _, _) =>
      p.(streaming := None, durable := p.durable + Agents(BlocksOf(e)),
         live := DeleteLive(p.live, Agents(BlocksOf(e))), messages := p.messages + [DurableMessage(e)])
    case ProgressMade(delta, text) =>
      var id := ProgressMessageId(e);
      p.(streaming := Some(BotMessage(e, id,
          ProgressBlock(ProgressMessageText(delta, text, StreamedText(p.streaming, id))))))
    case SubagentUpdated(_, _, _, _, _, _) =>
      var block := SubagentBlockFrom(e);
      if block.agentId in p.durable then p
      else p.(live := SetLive(p.live, BotMessage(e, SubagentId(block.agentId), block)))
    case RunEnded => p.(streaming := None)
    case OtherPayload => p
  }

  const EMPTY := Projection([], None, [], {})

  function Project(log: seq<Event>): Projection {
    if log == [] then EMPTY else ProjectEvent(Project(log[..|log| - 1]), log[|log| - 1])
  }

  function Shown(p: Projection): seq<Message> {
    p.messages + p.live + (if p.streaming.Some? then [p.streaming.value] else [])
  }

  /** The projection as the loop over mutable variables that it is. */
  method ProjectMessages(log: seq<Event>) returns (shown: seq<Message>)
    ensures shown == Shown(Project(log))
  {
    var messages: seq<Message>, live: seq<Message>, durable: set<string> := [], [], {};
    var streaming: Option<Message> := None;
    for i := 0 to |log|
      invariant Projection(messages, streaming, live, durable) == Project(log[..i])
    {
      assert log[..i + 1][..i] == log[..i];
      var e := log[i];
      match e.payload {
        case MessageCreated(_, _, _) =>
          streaming := None;
          var agents := Agents(BlocksOf(e));
          durable := durable + agents;
          live := DeleteLive(live, agents);
          messages := messages + [DurableMessage(e)];
        case ProgressMade(delta, text) =>
          var id := ProgressMessageId(e);
          var previousText := StreamedText(streaming, id);
          streaming := Some(BotMessage(e, id, ProgressBlock(ProgressMessageText(delta, text, previousText))));
        case SubagentUpdated(_, _, _, _, _, _) =>
          var block := SubagentBlockFrom(e);
          if block.agentId !in durable {
            live := SetLive(live, BotMessage(e, SubagentId(block.agentId), block));
          }
        case RunEnded =>
          streaming := None;
        case OtherPayload =>
      }
    }
    assert log[..|log|] == log;
    shown := messages + live;
    if streaming.Some? {
      shown := shown + [streaming.value];
    } else {
      assert shown + [] == shown;
    }
  }

  // ----- the reducer ------------------------------------------------------------------------------------

  datatype Snapshot = Snapshot(cursor: int, messages: seq<Message>)

  function Keep(messages: seq<Message>, f: Message -> bool): seq<Message> {
    if messages == [] then []
    else if f(messages[0]) then [messages[0]] + Keep(messages[1..], f)
    else Keep(messages[1..], f)
  }

  predicate IsProgress(m: Message) { m.id.ProgressId? }

  predicate NotProgress(m: Message) { !m.id.ProgressId? }

  predicate IsDurable(m: Message) { m.id.DurableId? }

  function NotProgressNor(id: MessageId): Message -> bool {
    (m: Message) => m.id != id && !m.id.ProgressId?
  }

  predicate ReplacedSubagent(m: Message, agents: set<string>) {
    exists b | b in m.blocks :: b.SubagentBlock? && b.agentId in agents
  }

  function NotReplacedBy(id: MessageId, agents: set<string>): Message -> bool {
    (m: Message) => m.id != id && !m.id.ProgressId? && !ReplacedSubagent(m, agents)
  }

  function Find(messages: seq<Message>, id: MessageId): Option<Message> {
    if messages == [] then None
    else if messages[0].id == id then Some(messages[0])
    else Find(messages[1..], id)
  }

  function PreviousText(found: Option<Message>): string {
    if found.Some? && found.value.blocks != [] && found.value.blocks[0].ProgressBlock?
    then found.value.blocks[0].text else ""
  }

  function Reduce(prev: Option<Snapshot>, e: Event): Option<Snapshot> {
    if prev.None? then None
    else
      var messages := prev.value.messages;
      match e.payload
      case ProgressMade(delta, text) =>
        var id := ProgressMessageId(e);
        var block := ProgressBlock(ProgressMessageText(delta, text, PreviousText(Find(messages, id))));
        Some(Snapshot(e.seqNo, Keep(messages, NotProgress) + [BotMessage(e, id, block)]))
      case SubagentUpdated(_, _, _, _, _, _) =>
        var block := SubagentBlockFrom(e);
        var next := BotMessage(e, SubagentId(block.agentId), block);
        Some(Snapshot(e.seqNo, Keep(messages, NotProgressNor(next.id)) + [next] + Keep(messages, IsProgress)))
      case MessageCreated(_, _, _) =>
        var next := DurableMessage(e);
        Some(Snapshot(e.seqNo, Keep(messages, NotReplacedBy(next.id, Agents(BlocksOf(e)))) + [next]))
      case RunEnded => prev
      case OtherPayload => prev
  }

  function ReduceAll(start: Snapshot, log: seq<Event>): (s: Option<Snapshot>)
    ensures s.Some?
  {
    if log == [] then Some(start) else Reduce(ReduceAll(start, log[..|log| - 1]), log[|log| - 1])
  }
}
