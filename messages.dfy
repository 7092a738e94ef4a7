/**
 * The A2A protocol records the playground shows, the classification of one streamed
 * response into a timeline entry, the read-only view of an entry (`ConversationMessage`),
 * and the encoding of the user's input parts into wire parts.
 */
module Messages {
  import opened Wrappers
  import opened JsValue
  import Strings
  import Base64
  import TextEncoding
  import ContentInput

  datatype Role = RoleUnspecified | RoleUser | RoleAgent

  /** The task states of the protocol; an enum value the client does not know is `Unrecognized`. */
  datatype TaskState =
    | Unspecified
    | Submitted
    | Working
    | Completed
    | Failed
    | Canceled
    | InputRequired
    | Rejected
    | AuthRequired
    | Unrecognized(code: int)

  /** The content of a part (a protobuf oneof, which may be unset). */
  datatype PartContent =
    | NoContent
    | TextContent(text: string)
    | RawContent(raw: seq<Base64.byte>)
    | UrlContent(url: string)
    | DataContent(data: Value)

  datatype Part = Part(content: PartContent, mediaType: string, filename: string, metadata: map<string, Value>)

  /** Protobuf strings and lists are never missing: an absent one reads as `''` or `[]`. */
  datatype Message = Message(
    messageId: string,
    contextId: string,
    taskId: string,
    role: Role,
    parts: seq<Part>,
    referenceTaskIds: seq<string>)

  datatype TaskStatus = TaskStatus(state: TaskState, message: Option<Message>)

  /** `id` is the task's resource name, possibly `tasks/<id>`. */
  datatype Task = Task(id: string, contextId: string, status: Option<TaskStatus>)

  datatype StatusUpdateEvent = StatusUpdateEvent(taskId: string, contextId: string, status: Option<TaskStatus>)

  datatype Artifact = Artifact(parts: seq<Part>)

  datatype ArtifactUpdateEvent = ArtifactUpdateEvent(taskId: string, contextId: string, artifact: Option<Artifact>)

  /** `response.payload` of one streamed response: the case and its (possibly missing) value. */
  datatype Payload =
    | NoPayload
    | MessageCase(msg: Option<Message>)
    | TaskCase(task: Option<Task>)
    | StatusUpdateCase(statusUpdate: Option<StatusUpdateEvent>)
    | ArtifactUpdateCase(artifactUpdate: Option<ArtifactUpdateEvent>)
    | UnknownCase(caseName: string)

  datatype UnifiedKind = AgentMessageKind | TaskKind | StatusUpdateKind | ArtifactUpdateKind

  /** An entry of the conversation timeline. */
  datatype UnifiedMessage = UnifiedMessage(
    kind: UnifiedKind,
    agentMessage: Option<Message>,
    task: Option<Task>,
    statusUpdate: Option<StatusUpdateEvent>,
    artifactUpdate: Option<ArtifactUpdateEvent>,
    timestamp: int,
    messageId: string)

  /** The eight states that have a label of their own. */
  predicate IsNamedState(s: TaskState) {
    s.Submitted? || s.Working? || s.Completed? || s.Failed? || s.Canceled?
    || s.InputRequired? || s.Rejected? || s.AuthRequired?
  }

  /** The label shown for a task state. */
  function StateText(s: TaskState): (r: string)
    ensures r == "Status update" <==> !IsNamedState(s)
  {
    match s
    case Submitted => "Task submitted"
    case Working => "Task in progress"
    case Completed => "Task completed"
    case Failed => "Task failed"
    case Canceled => "Task cancelled"
    case InputRequired => "Input required"
    case Rejected => "Task rejected"
    case AuthRequired => "Authentication required"
    case _ => "Status update"
  }

  /** Different named states are told apart by their labels. */
  lemma StateTextDistinguishes(s: TaskState, t: TaskState)
    requires IsNamedState(s) && StateText(s) == StateText(t)
    ensures s == t
  {
    match s
    case Submitted => assert StateText(t)[5] == 's';
    case Working => assert StateText(t)[5] == 'i';
    case Completed => assert StateText(t)[5] == 'c';
    case Failed => assert StateText(t)[5] == 'f';
    case Canceled => assert StateText(t)[6] == 'a';
    case InputRequired => assert StateText(t)[0] == 'I';
    case Rejected => assert StateText(t)[5] == 'r';
    case AuthRequired => assert StateText(t)[0] == 'A';
  }

  /** The kind's own record is present and the others are absent. */
  predicate WellFormed(u: UnifiedMessage) {
    (u.agentMessage.Some? <==> u.kind.AgentMessageKind?)
    && (u.task.Some? <==> u.kind.TaskKind?)
    && (u.statusUpdate.Some? <==> u.kind.StatusUpdateKind?)
    && (u.artifactUpdate.Some? <==> u.kind.ArtifactUpdateKind?)
  }

  /** The record named by the entry's kind is present. */
  predicate HasOwnRecord(u: UnifiedMessage) {
    match u.kind
    case AgentMessageKind => u.agentMessage.Some?
    case TaskKind => u.task.Some?
    case StatusUpdateKind => u.statusUpdate.Some?
    case ArtifactUpdateKind => u.artifactUpdate.Some?
  }

  /** The payload carries one of the four known cases with its value present. */
  predicate HasKnownValue(p: Payload) {
    (p.MessageCase? && p.msg.Some?) || (p.TaskCase? && p.task.Some?)
    || (p.StatusUpdateCase? && p.statusUpdate.Some?) || (p.ArtifactUpdateCase? && p.artifactUpdate.Some?)
  }

  /**
   * One streamed response as a timeline entry stamped `now`, or None when the payload is
   * missing, of an unknown case, or without its value. A message keeps its own non-empty
   * id; every other entry gets `freshId`.
   */
  function StreamResponseToAgentMessage(p: Payload, now: int, freshId: string): (r: Option<UnifiedMessage>)
    ensures r.Some? <==> HasKnownValue(p)
    ensures r.Some? ==> WellFormed(r.value) && r.value.timestamp == now
    ensures r.Some? ==> (r.value.kind.AgentMessageKind? <==> p.MessageCase?)
    ensures r.Some? ==> (r.value.kind.TaskKind? <==> p.TaskCase?)
    ensures r.Some? ==> (r.value.kind.StatusUpdateKind? <==> p.StatusUpdateCase?)
    ensures r.Some? ==> (r.value.kind.ArtifactUpdateKind? <==> p.ArtifactUpdateCase?)
    ensures r.Some? && p.MessageCase? && p.msg.value.messageId != "" ==> r.value.messageId == p.msg.value.messageId
    ensures r.Some? && !(p.MessageCase? && p.msg.value.messageId != "") ==> r.value.messageId == freshId
    ensures r.Some? && p.MessageCase? ==> r.value.agentMessage == p.msg
    ensures r.Some? && p.TaskCase? ==> r.value.task == p.task
    ensures r.Some? && p.StatusUpdateCase? ==> r.value.statusUpdate == p.statusUpdate
    ensures r.Some? && p.ArtifactUpdateCase? ==> r.value.artifactUpdate == p.artifactUpdate
  {
    match p
    case MessageCase(Some(m)) =>
      Some(UnifiedMessage(AgentMessageKind, Some(m), None, None, None, now,
        if m.messageId != "" then m.messageId else freshId))
    case TaskCase(Some(t)) =>
      Some(UnifiedMessage(TaskKind, None, Some(t), None, None, now, freshId))
    case StatusUpdateCase(Some(e)) =>
      Some(UnifiedMessage(StatusUpdateKind, None, None, Some(e), None, now, freshId))
    case ArtifactUpdateCase(Some(e)) =>
      Some(UnifiedMessage(ArtifactUpdateKind, None, None, None, Some(e), now, freshId))
    case _ => None
  }

  /** `payload.value?.contextId` for the four known cases, `''` otherwise. */
  function PayloadContextId(p: Payload): string {
    match p
    case MessageCase(Some(m)) => m.contextId
    case TaskCase(Some(t)) => t.contextId
    case StatusUpdateCase(Some(e)) => e.contextId
    case ArtifactUpdateCase(Some(e)) => e.contextId
    case _ => ""
  }

  datatype PayloadType = MsgType | TaskType | StatusUpdateType | ArtifactUpdateType

  /**
   * The read-only view of a timeline entry. `key` is the entry's id followed by `-` and a
   * fresh id, so two views of the same entry have different keys.
   */
  datatype ConversationMessage = ConversationMessage(key: string, unifiedMessage: UnifiedMessage, payloadType: PayloadType)
  {
    /** `'msg'` for an agent message, the entry's own type otherwise. */
    function GetPayloadType(): (t: PayloadType)
      requires Valid()
      ensures t.MsgType? <==> unifiedMessage.kind.AgentMessageKind?
      ensures t.TaskType? <==> unifiedMessage.kind.TaskKind?
      ensures t.StatusUpdateType? <==> unifiedMessage.kind.StatusUpdateKind?
      ensures t.ArtifactUpdateType? <==> unifiedMessage.kind.ArtifactUpdateKind?
    {
      payloadType
    }

    predicate Valid() {
      payloadType == KindPayloadType(unifiedMessage.kind)
    }

    function GetPayloadTypeLabel(): (r: string)
      ensures r in {"Message", "Task", "Status Update", "Artifact Update"}
      ensures r == "Message" <==> payloadType.MsgType?
    {
      match payloadType
      case MsgType => "Message"
      case TaskType => "Task"
      case StatusUpdateType => "Status Update"
      case ArtifactUpdateType => "Artifact Update"
    }

    function GetMessageId(): string
    {
      unifiedMessage.messageId
    }

    predicate IsAgentMessage() {
      unifiedMessage.kind.AgentMessageKind? && unifiedMessage.agentMessage.Some?
    }

    /** Only an agent-message entry sent with the user role is the user's. */
    predicate IsUser()
    {
      IsAgentMessage() && unifiedMessage.agentMessage.value.role == RoleUser
    }

    /** `'user'` or `'agent'` for a message entry, `''` for every other entry. */
    function GetRole(): (r: string)
      ensures r == "user" <==> IsUser()
      ensures r == "" <==> !IsAgentMessage()
    {
      if IsAgentMessage() then (if IsUser() then "user" else "agent") else ""
    }

    /** The parts to display: those of the message, artifact, or status / task message. */
    function GetParts(): (r: seq<Part>)
      ensures IsAgentMessage() ==> r == unifiedMessage.agentMessage.value.parts
      ensures (!IsAgentMessage() && !unifiedMessage.kind.ArtifactUpdateKind?
               && !unifiedMessage.kind.StatusUpdateKind? && !unifiedMessage.kind.TaskKind?) ==> r == []
      ensures unifiedMessage.kind.ArtifactUpdateKind? ==>
        r == (match unifiedMessage.artifactUpdate
              case Some(a) => (match a.artifact case Some(art) => art.parts case None => [])
              case None => [])
      ensures unifiedMessage.kind.StatusUpdateKind? && unifiedMessage.statusUpdate.Some?
              && unifiedMessage.statusUpdate.value.status.Some? && unifiedMessage.statusUpdate.value.status.value.message.Some? ==>
        r == unifiedMessage.statusUpdate.value.status.value.message.value.parts
      ensures unifiedMessage.kind.TaskKind? && unifiedMessage.task.Some?
              && unifiedMessage.task.value.status.Some? && unifiedMessage.task.value.status.value.message.Some? ==>
        r == unifiedMessage.task.value.status.value.message.value.parts
      ensures (unifiedMessage.kind.StatusUpdateKind? && !(unifiedMessage.statusUpdate.Some?
               && unifiedMessage.statusUpdate.value.status.Some? && unifiedMessage.statusUpdate.value.status.value.message.Some?)) ==>
        r == []
      ensures (unifiedMessage.kind.TaskKind? && !(unifiedMessage.task.Some?
               && unifiedMessage.task.value.status.Some? && unifiedMessage.task.value.status.value.message.Some?)) ==>
        r == []
    {
      var u := unifiedMessage;
      if IsAgentMessage() then u.agentMessage.value.parts
      else if u.kind.ArtifactUpdateKind? && u.artifactUpdate.Some? && u.artifactUpdate.value.artifact.Some? then
        u.artifactUpdate.value.artifact.value.parts
      else if u.kind.StatusUpdateKind? && u.statusUpdate.Some? && u.statusUpdate.value.status.Some?
        && u.statusUpdate.value.status.value.message.Some? then
        u.statusUpdate.value.status.value.message.value.parts
      else if u.kind.TaskKind? && u.task.Some? && u.task.value.status.Some? && u.task.value.status.value.message.Some? then
        u.task.value.status.value.message.value.parts
      else []
    }

    /** The context id of the entry's own record, `''` when that record is missing. */
    function GetContextId(): (r: string)
      ensures WellFormed(unifiedMessage) ==> r == EntryContextId(unifiedMessage)
      ensures !HasOwnRecord(unifiedMessage) ==> r == ""
    {
      var u := unifiedMessage;
      if u.kind.AgentMessageKind? && u.agentMessage.Some? then u.agentMessage.value.contextId
      else if u.kind.StatusUpdateKind? && u.statusUpdate.Some? then u.statusUpdate.value.contextId
      else if u.kind.TaskKind? && u.task.Some? then u.task.value.contextId
      else if u.kind.ArtifactUpdateKind? && u.artifactUpdate.Some? then u.artifactUpdate.value.contextId
      else ""
    }

    /** The task id of the entry; a task's resource name loses one leading `tasks/`. */
    function GetTaskId(): (r: string)
      ensures unifiedMessage.kind.TaskKind? && unifiedMessage.task.Some? ==>
        var name := unifiedMessage.task.value.id;
        (Strings.StartsWith(name, "tasks/") ==> "tasks/" + r == name)
        && (!Strings.StartsWith(name, "tasks/") ==> r == name)
      ensures IsAgentMessage() ==> r == unifiedMessage.agentMessage.value.taskId
      ensures unifiedMessage.kind.StatusUpdateKind? && unifiedMessage.statusUpdate.Some? ==>
        r == unifiedMessage.statusUpdate.value.taskId
      ensures unifiedMessage.kind.ArtifactUpdateKind? && unifiedMessage.artifactUpdate.Some? ==>
        r == unifiedMessage.artifactUpdate.value.taskId
      ensures (!IsAgentMessage() && !(unifiedMessage.kind.TaskKind? && unifiedMessage.task.Some?)
               && !(unifiedMessage.kind.StatusUpdateKind? && unifiedMessage.statusUpdate.Some?)
               && !(unifiedMessage.kind.ArtifactUpdateKind? && unifiedMessage.artifactUpdate.Some?)) ==> r == ""
    {
      var u := unifiedMessage;
      if IsAgentMessage() then u.agentMessage.value.taskId
      else if u.kind.StatusUpdateKind? && u.statusUpdate.Some? then u.statusUpdate.value.taskId
      else if u.kind.TaskKind? && u.task.Some? then
        var name := u.task.value.id;
        if Strings.StartsWith(name, "tasks/") then name[6..] else name
      else if u.kind.ArtifactUpdateKind? && u.artifactUpdate.Some? then u.artifactUpdate.value.taskId
      else ""
    }

    function GetTimestamp(): int
    {
      unifiedMessage.timestamp
    }

    /** The state of a status update that has a status; no state for every other entry. */
    function GetState(): (r: Option<TaskState>)
      ensures r.Some? ==> unifiedMessage.kind.StatusUpdateKind?
      ensures r.Some? <==> (unifiedMessage.kind.StatusUpdateKind? && unifiedMessage.statusUpdate.Some?
                            && unifiedMessage.statusUpdate.value.status.Some?)
      ensures r.Some? ==> r.value == unifiedMessage.statusUpdate.value.status.value.state
    {
      var u := unifiedMessage;
      if u.kind.StatusUpdateKind? && u.statusUpdate.Some? && u.statusUpdate.value.status.Some? then
        Some(u.statusUpdate.value.status.value.state)
      else None
    }

    /** The label of the state, defined exactly where `GetState` is. */
    function GetStateText(): (r: Option<string>)
      ensures r.Some? <==> GetState().Some?
      ensures r.Some? ==> r.value == StateText(GetState().value)
    {
      match GetState()
      case Some(s) => Some(StateText(s))
      case None => None
    }

    function GetStatusUpdate(): (r: Option<StatusUpdateEvent>)
      ensures r.Some? ==> unifiedMessage.kind.StatusUpdateKind?
      ensures unifiedMessage.kind.StatusUpdateKind? ==> r == unifiedMessage.statusUpdate
    {
      if unifiedMessage.kind.StatusUpdateKind? then unifiedMessage.statusUpdate else None
    }

    predicate IsFinal() {
      false
    }

    /** The message behind the entry: the agent message itself, or the message of a status update. */
    function GetSourceMessage(): (r: Option<Message>)
      ensures unifiedMessage.kind.AgentMessageKind? ==> r == unifiedMessage.agentMessage
      ensures unifiedMessage.kind.TaskKind? || unifiedMessage.kind.ArtifactUpdateKind? ==> r.None?
      ensures unifiedMessage.kind.StatusUpdateKind? && unifiedMessage.statusUpdate.Some?
              && unifiedMessage.statusUpdate.value.status.Some? ==>
        r == unifiedMessage.statusUpdate.value.status.value.message
      ensures (unifiedMessage.kind.StatusUpdateKind?
               && !(unifiedMessage.statusUpdate.Some? && unifiedMessage.statusUpdate.value.status.Some?)) ==> r.None?
    {
      var u := unifiedMessage;
      if u.kind.AgentMessageKind? then u.agentMessage
      else if u.kind.StatusUpdateKind? && u.statusUpdate.Some? && u.statusUpdate.value.status.Some? then
        u.statusUpdate.value.status.value.message
      else None
    }
  }

  function KindPayloadType(k: UnifiedKind): PayloadType {
    match k
    case AgentMessageKind => MsgType
    case TaskKind => TaskType
    case StatusUpdateKind => StatusUpdateType
    case ArtifactUpdateKind => ArtifactUpdateType
  }

  /** The context id of a well-formed entry's own record. */
  function EntryContextId(u: UnifiedMessage): string
    requires WellFormed(u)
  {
    match u.kind
    case AgentMessageKind => u.agentMessage.value.contextId
    case TaskKind => u.task.value.contextId
    case StatusUpdateKind => u.statusUpdate.value.contextId
    case ArtifactUpdateKind => u.artifactUpdate.value.contextId
  }

  /** `ConversationMessage.fromUnifiedMessage(u)`, with `freshKey` standing for the generated suffix. */
  function FromUnified(u: UnifiedMessage, freshKey: string): (c: ConversationMessage)
    ensures c.Valid() && c.unifiedMessage == u
    ensures c.key == u.messageId + "-" + freshKey
  {
    ConversationMessage(u.messageId + "-" + freshKey, u, KindPayloadType(u.kind))
  }

  /**
   * The entry made from a streamed response reports the context id that the stream's
   * context-id resolution reads from the same response, and the payload type of its case.
   */
  lemma ClassifiedEntryAgrees(p: Payload, now: int, freshId: string, freshKey: string)
    requires HasKnownValue(p)
    ensures var c := FromUnified(StreamResponseToAgentMessage(p, now, freshId).value, freshKey);
      c.GetContextId() == PayloadContextId(p)
      && (c.GetPayloadType() == MsgType <==> p.MessageCase?)
      && c.GetTimestamp() == now
  {
  }

  /** A task entry's id is a suffix of the task's name, with at most the 6 characters of `tasks/` removed. */
  lemma TaskIdIsSuffix(c: ConversationMessage)
    requires c.unifiedMessage.kind.TaskKind? && c.unifiedMessage.task.Some?
    ensures var name := c.unifiedMessage.task.value.id; var r := c.GetTaskId();
      |name| - 6 <= |r| <= |name| && r == name[|name| - |r|..]
  {
  }

  // ----- the user's input as wire parts -----

  /** How file and audio bytes go on the wire. */
  datatype ByteEncoding =
    | RawBytes       // the bytes as read
    | Base64Text     // the UTF-8 bytes of the base 64 text of the bytes (the streaming path)

  function WireBytes(bytes: seq<Base64.byte>, enc: ByteEncoding): seq<Base64.byte> {
    match enc
    case RawBytes => bytes
    case Base64Text => TextEncoding.Utf8Encode(Base64.Encode(bytes))
  }

  /** `s || fallback` for a string. */
  function OrDefault(s: string, fallback: string): (r: string)
    ensures s != "" ==> r == s
    ensures s == "" ==> r == fallback
  {
    if s != "" then s else fallback
  }

  /**
   * The wire part for one input part. A file keeps its MIME type and name (empty ones stay
   * empty); audio falls back to `audio/mp4` and `recording.mp4` when they are empty.
   */
  function WirePart(p: ContentInput.MessagePart, enc: ByteEncoding): (w: Part)
    ensures p.TextMessagePart? ==> w.content == TextContent(p.content) && w.mediaType == "" && w.filename == ""
    ensures !p.TextMessagePart? ==> w.content == RawContent(WireBytes(ContentInput.PartBytes(p), enc))
    ensures p.FileMessagePart? ==> w.mediaType == p.mimeType && w.filename == p.fileName
    ensures p.AudioMessagePart? ==> w.mediaType != "" && w.filename != ""
    ensures p.AudioMessagePart? && p.mimeType != "" ==> w.mediaType == p.mimeType
    ensures p.AudioMessagePart? && p.fileName != "" ==> w.filename == p.fileName
    ensures p.AudioMessagePart? && p.mimeType == "" ==> w.mediaType == ContentInput.DefaultAudioMimeType
    ensures p.AudioMessagePart? && p.fileName == "" ==> w.filename == ContentInput.DefaultAudioFileName
    ensures w.metadata == map[]
  {
    match p
    case TextMessagePart(content) => Part(TextContent(content), "", "", map[])
    case FileMessagePart(f, mimeType, fileName) =>
      Part(RawContent(WireBytes(f.contents, enc)), OrDefault(mimeType, ""), OrDefault(fileName, ""), map[])
    case AudioMessagePart(b, mimeType, fileName) =>
      Part(RawContent(WireBytes(b.contents, enc)),
        OrDefault(mimeType, ContentInput.DefaultAudioMimeType), OrDefault(fileName, ContentInput.DefaultAudioFileName), map[])
  }

  /** On the streaming path the receiver gets the original bytes back by reading ASCII and decoding base 64. */
  lemma Base64TextRoundTrip(bytes: seq<Base64.byte>)
    ensures var w := WireBytes(bytes, Base64Text);
      (forall i :: 0 <= i < |w| ==> w[i] < 128)
      && Base64.Decode(TextEncoding.AsciiDecode(w)) == Some(bytes)
  {
    var text := Base64.Encode(bytes);
    Base64.EncodeIsAscii(bytes);
    TextEncoding.AsciiRoundTrip(text);
    Base64.DecodeEncode(bytes);
  }

  /**
   * `bytesToBase64`: the bytes as a string of character codes, built one character at a
   * time, then handed to `btoa`.
   */
  method BytesToBase64(bytes: seq<Base64.byte>) returns (text: string)
    ensures text == Base64.Encode(bytes)
  {
    var binary := "";
    var i := 0;
    while i < |bytes|
      invariant 0 <= i <= |bytes|
      invariant binary == TextEncoding.Latin1String(bytes[..i])
    {
      binary := binary + [bytes[i] as char];
      i := i + 1;
    }
    assert bytes[..i] == bytes;
    TextEncoding.BtoaOfLatin1(bytes);
    text := TextEncoding.Btoa(binary).value;
  }

  /** The loop shared by `userMessageToAgentMessage` and `sendStreamingMessage`: one wire part per input part, in order. */
  method EncodeParts(parts: seq<ContentInput.MessagePart>, enc: ByteEncoding) returns (wire: seq<Part>)
    ensures |wire| == |parts|
    ensures forall i :: 0 <= i < |parts| ==> wire[i] == WirePart(parts[i], enc)
  {
    wire := [];
    for i := 0 to |parts|
      invariant |wire| == i
      invariant forall j :: 0 <= j < i ==> wire[j] == WirePart(parts[j], enc)
    {
      var part := parts[i];
      var w: Part;
      match part {
        case TextMessagePart(content) =>
          w := Part(TextContent(content), "", "", map[]);
        case FileMessagePart(f, mimeType, fileName) =>
          var bytes := f.contents;
          if enc.Base64Text? {
            var text := BytesToBase64(bytes);
            bytes := TextEncoding.Utf8Encode(text);
          }
          w := Part(RawContent(bytes), OrDefault(mimeType, ""), OrDefault(fileName, ""), map[]);
        case AudioMessagePart(b, mimeType, fileName) =>
          var bytes := b.contents;
          if enc.Base64Text? {
            var text := BytesToBase64(bytes);
            bytes := TextEncoding.Utf8Encode(text);
          }
          w := Part(RawContent(bytes), OrDefault(mimeType, ContentInput.DefaultAudioMimeType),
            OrDefault(fileName, ContentInput.DefaultAudioFileName), map[]);
      }
      wire := wire + [w];
    }
  }

  /**
   * `userMessageToAgentMessage(parts, messageId?, contextId?)`: a user message with one raw
   * part per input part, no task, the given id unless it is missing or empty.
   */
  method UserMessageToAgentMessage(parts: seq<ContentInput.MessagePart>, messageId: Option<string>,
                                   contextId: Option<string>, freshId: string) returns (m: Message)
    ensures m.role == RoleUser && m.taskId == "" && m.referenceTaskIds == []
    ensures m.messageId == if messageId.Some? && messageId.value != "" then messageId.value else freshId
    ensures m.contextId == contextId.GetOr("")
    ensures |m.parts| == |parts|
    ensures forall i :: 0 <= i < |parts| ==> m.parts[i] == WirePart(parts[i], RawBytes)
  {
    var agentParts := EncodeParts(parts, RawBytes);
    var msgId := if messageId.Some? then OrDefault(messageId.value, freshId) else freshId;
    m := Message(msgId, OrDefault(contextId.GetOr(""), ""), "", RoleUser, agentParts, []);
  }
}
