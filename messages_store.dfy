/**
 * The conversation store: the timeline of entries ordered by timestamp, the session's
 * context id, and the two send operations that fold a response stream into the context id
 * the conversation continues in. The stream arrives as a finished sequence of payloads.
 */
module MessagesStore {
  import opened Wrappers
  import opened JsValue
  import opened Messages
  import ContentInput

  // ----- the timeline -----

  predicate HasId(ms: seq<UnifiedMessage>, id: string) {
    exists i :: 0 <= i < |ms| && ms[i].messageId == id
  }

  predicate SortedByTime(ms: seq<UnifiedMessage>) {
    forall i, j :: 0 <= i < j < |ms| ==> ms[i].timestamp <= ms[j].timestamp
  }

  predicate UniqueIds(ms: seq<UnifiedMessage>) {
    forall i, j :: 0 <= i < j < |ms| ==> ms[i].messageId != ms[j].messageId
  }

  /** The first index whose entry is strictly later than `t`, or the length when there is none. */
  function InsertIndex(ms: seq<UnifiedMessage>, t: int): (k: nat)
    ensures k <= |ms|
    ensures forall j :: 0 <= j < k ==> ms[j].timestamp <= t
    ensures k < |ms| ==> ms[k].timestamp > t
  {
    if ms == [] then 0
    else if ms[0].timestamp > t then 0
    else 1 + InsertIndex(ms[1..], t)
  }

  /**
   * The timeline after `addMessage(u)`: unchanged when an entry with u's id is present,
   * otherwise u inserted after every entry not later than it.
   */
  function Added(ms: seq<UnifiedMessage>, u: UnifiedMessage): seq<UnifiedMessage> {
    if HasId(ms, u.messageId) then ms
    else
      var k := InsertIndex(ms, u.timestamp);
      ms[..k] + [u] + ms[k..]
  }

  lemma AddDuplicateIsNoOp(ms: seq<UnifiedMessage>, u: UnifiedMessage)
    requires HasId(ms, u.messageId)
    ensures Added(ms, u) == ms
  {
  }

  /**
   * A new entry grows the timeline by one: it sits at the index k of the first entry
   * strictly later than it (so after every entry with an equal timestamp), everything before
   * it is not later than it, and removing it gives the old timeline back (so the other
   * entries keep their relative order).
   */
  lemma AddInsertsOnce(ms: seq<UnifiedMessage>, u: UnifiedMessage)
    requires !HasId(ms, u.messageId)
    ensures var r := Added(ms, u); var k := InsertIndex(ms, u.timestamp);
      |r| == |ms| + 1 && r[k] == u && r[..k] + r[k + 1..] == ms
      && (forall j :: 0 <= j < k ==> r[j].timestamp <= u.timestamp)
      && (k + 1 < |r| ==> r[k + 1].timestamp > u.timestamp)
  {
    SpliceFacts(ms, InsertIndex(ms, u.timestamp), u);
  }

  /** `splice(k, 0, u)` on a copy: u lands at k, the rest shifts by one. */
  lemma SpliceFacts(ms: seq<UnifiedMessage>, k: nat, u: UnifiedMessage)
    requires k <= |ms|
    ensures var r := ms[..k] + [u] + ms[k..];
      |r| == |ms| + 1 && r[k] == u && r[..k] + r[k + 1..] == ms
      && (forall j :: 0 <= j < k ==> r[j] == ms[j])
      && (forall j :: k < j < |r| ==> r[j] == ms[j - 1])
  {
    var r := ms[..k] + [u] + ms[k..];
    assert r[..k] == ms[..k];
    assert r[k + 1..] == ms[k..];
    assert ms[..k] + ms[k..] == ms;
  }

  /** Adding keeps the multiset of entries, plus the new one when it is new. */
  lemma AddMultiset(ms: seq<UnifiedMessage>, u: UnifiedMessage)
    ensures multiset(Added(ms, u)) == if HasId(ms, u.messageId) then multiset(ms) else multiset(ms) + multiset{u}
  {
    if !HasId(ms, u.messageId) {
      var k := InsertIndex(ms, u.timestamp);
      assert ms == ms[..k] + ms[k..];
    }
  }

  lemma AddKeepsSorted(ms: seq<UnifiedMessage>, u: UnifiedMessage)
    requires SortedByTime(ms)
    ensures SortedByTime(Added(ms, u))
  {
    if !HasId(ms, u.messageId) {
      var k := InsertIndex(ms, u.timestamp);
      var r := Added(ms, u);
      forall i, j | 0 <= i < j < |r| ensures r[i].timestamp <= r[j].timestamp {
        if j < k {
          assert r[i] == ms[i] && r[j] == ms[j];
        } else if j == k {
          assert r[i] == ms[i];
        } else if i > k {
          assert r[i] == ms[i - 1] && r[j] == ms[j - 1];
        } else if i == k {
          assert r[j] == ms[j - 1];
          assert ms[k].timestamp > u.timestamp;
        } else {
          assert r[i] == ms[i] && r[j] == ms[j - 1];
        }
      }
    }
  }

  lemma AddKeepsIdsUnique(ms: seq<UnifiedMessage>, u: UnifiedMessage)
    requires UniqueIds(ms)
    ensures UniqueIds(Added(ms, u))
  {
    if !HasId(ms, u.messageId) {
      var k := InsertIndex(ms, u.timestamp);
      var r := Added(ms, u);
      forall i, j | 0 <= i < j < |r| ensures r[i].messageId != r[j].messageId {
        if j < k {
          assert r[i] == ms[i] && r[j] == ms[j];
        } else if j == k {
          assert r[i] == ms[i];
        } else if i > k {
          assert r[i] == ms[i - 1] && r[j] == ms[j - 1];
        } else if i == k {
          assert r[j] == ms[j - 1];
        } else {
          assert r[i] == ms[i] && r[j] == ms[j - 1];
        }
      }
    }
  }

  /** Adding the same entry twice is the same as adding it once. */
  lemma AddIdempotent(ms: seq<UnifiedMessage>, u: UnifiedMessage)
    ensures Added(Added(ms, u), u) == Added(ms, u)
  {
    if !HasId(ms, u.messageId) {
      var k := InsertIndex(ms, u.timestamp);
      assert Added(ms, u)[k] == u;
    }
  }

  // ----- the context id a response stream leaves -----

  /** The context id after the stream: each payload with a non-empty one replaces the current one. */
  function LastContextId(current: string, events: seq<Payload>): string
    decreases |events|
  {
    if events == [] then current
    else
      var c := PayloadContextId(events[0]);
      LastContextId(if c != "" then c else current, events[1..])
  }

  /** A stream where no payload carries a context id leaves the starting one. */
  lemma {:induction false} NoContextIdKeepsStart(start: string, events: seq<Payload>)
    requires forall j :: 0 <= j < |events| ==> PayloadContextId(events[j]) == ""
    ensures LastContextId(start, events) == start
    decreases |events|
  {
    if events != [] {
      NoContextIdKeepsStart(start, events[1..]);
    }
  }

  /** Otherwise the context id of the last payload that carries one wins. */
  lemma {:induction false} LastContextIdWins(start: string, events: seq<Payload>, k: nat)
    requires k < |events| && PayloadContextId(events[k]) != ""
    requires forall j :: k < j < |events| ==> PayloadContextId(events[j]) == ""
    ensures LastContextId(start, events) == PayloadContextId(events[k])
    decreases |events|
  {
    var c := PayloadContextId(events[0]);
    if k == 0 {
      NoContextIdKeepsStart(c, events[1..]);
    } else {
      LastContextIdWins(if c != "" then c else start, events[1..], k - 1);
    }
  }

  /** Some payload of the stream carries a non-empty context id. */
  predicate SomeContextId(events: seq<Payload>) {
    exists j :: 0 <= j < |events| && PayloadContextId(events[j]) != ""
  }

  /** `getOrCreateSessionContextId` as a value: the id returned and the session id afterwards. */
  function SessionIdCall(session: Option<string>, freshId: string): (r: (string, Option<string>))
    requires freshId != ""
    ensures r.0 != "" && r.1 == Some(r.0)
    ensures session.Some? && session.value != "" ==> r.0 == session.value
  {
    if session.Some? && session.value != "" then (session.value, session) else (freshId, Some(freshId))
  }

  /** A second call returns the id the first one returned, whatever fresh id it is offered. */
  lemma SessionIdStable(session: Option<string>, fresh1: string, fresh2: string)
    requires fresh1 != "" && fresh2 != ""
    ensures var first := SessionIdCall(session, fresh1);
      SessionIdCall(first.1, fresh2) == first
  {
  }

  /** The user message `sendStreamingMessage` sends: base 64 parts in the session's context. */
  predicate IsStreamingRequest(m: Message, parts: seq<ContentInput.MessagePart>, messageId: string,
                               freshMessageId: string, sessionId: string)
  {
    && m.role == RoleUser && m.taskId == "" && m.referenceTaskIds == []
    && m.contextId == sessionId
    && m.messageId == OrDefault(messageId, freshMessageId)
    && |m.parts| == |parts|
    && (forall i :: 0 <= i < |parts| ==> m.parts[i] == WirePart(parts[i], Base64Text))
  }

  /** The single data part of a function response, tagged as such in its metadata. */
  function FunctionResponsePart(callId: string, callName: string, response: map<string, Value>): (p: Part)
    ensures p.content.DataContent? && p.content.data.Obj?
    ensures p.content.data.fields.Keys == {"id", "name", "response"}
    ensures p.content.data.fields["id"] == Str(callId) && p.content.data.fields["name"] == Str(callName)
    ensures p.content.data.fields["response"] == Obj(response)
    ensures p.metadata == map["adk_type" := Str("function_response")]
  {
    Part(DataContent(Obj(map["id" := Str(callId), "name" := Str(callName), "response" := Obj(response)])),
      "", "", map["adk_type" := Str("function_response")])
  }

  class Store {
    var messages: seq<UnifiedMessage>
    var sessionContextId: Option<string>

    constructor ()
      ensures messages == [] && sessionContextId == None
    {
      messages := [];
      sessionContextId := None;
    }

    /** The session's context id, created from `freshId` when it is unset or empty. */
    method GetOrCreateSessionContextId(freshId: string) returns (id: string)
      requires freshId != ""
      modifies this`sessionContextId
      ensures (id, sessionContextId) == SessionIdCall(old(sessionContextId), freshId)
    {
      if sessionContextId.Some? && sessionContextId.value != "" {
        return sessionContextId.value;
      }
      id := freshId;
      sessionContextId := Some(id);
    }

    method ClearSessionContextId()
      modifies this`sessionContextId
      ensures sessionContextId == None
    {
      sessionContextId := None;
    }

    /** `addMessage`: a duplicate id is ignored; otherwise the entry goes after every entry not later than it. */
    method AddMessage(u: UnifiedMessage)
      modifies this`messages
      ensures messages == Added(old(messages), u)
    {
      var found := false;
      var i := 0;
      while i < |messages|
        invariant 0 <= i <= |messages|
        invariant forall j :: 0 <= j < i ==> messages[j].messageId != u.messageId
      {
        if messages[i].messageId == u.messageId {
          found := true;
          break;
        }
        i := i + 1;
      }
      if found {
        return;
      }
      var msgTime := u.timestamp;
      var insertIndex := |messages|;
      i := 0;
      while i < |messages|
        invariant 0 <= i <= |messages|
        invariant forall j :: 0 <= j < i ==> messages[j].timestamp <= msgTime
      {
        if messages[i].timestamp > msgTime {
          insertIndex := i;
          break;
        }
        i := i + 1;
      }
      InsertIndexIsFirstLater(messages, msgTime, insertIndex);
      var next := messages[..insertIndex] + [u] + messages[insertIndex..];
      messages := next;
    }

    method GetMessages() returns (ms: seq<UnifiedMessage>)
      ensures ms == messages
    {
      ms := messages;
    }

    method ClearMessages()
      modifies this`messages
      ensures messages == []
    {
      messages := [];
    }

    /**
     * The loop over the response stream: each payload with a non-empty context id
     * becomes the resolved id and the session's id.
     */
    method ResolveContextId(start: string, events: seq<Payload>) returns (resolved: string)
      modifies this`sessionContextId
      ensures resolved == LastContextId(start, events)
      ensures SomeContextId(events) ==> sessionContextId == Some(resolved)
      ensures !SomeContextId(events) ==> sessionContextId == old(sessionContextId) && resolved == start
    {
      resolved := start;
      for i := 0 to |events|
        invariant LastContextId(resolved, events[i..]) == LastContextId(start, events)
        invariant SomeContextId(events[..i]) ==> sessionContextId == Some(resolved)
        invariant !SomeContextId(events[..i]) ==> sessionContextId == old(sessionContextId) && resolved == start
      {
        var c := PayloadContextId(events[i]);
        if c != "" {
          resolved := c;
          sessionContextId := Some(resolved);
        }
        assert events[..i + 1] == events[..i] + [events[i]];
        assert events[i..][1..] == events[i + 1..];
      }
      assert events[..|events|] == events;
    }

    /**
     * `sendStreamingMessage`: the message goes out in the given context, or in the session's
     * (created if need be); the returned id is the one the stream leaves.
     */
    method SendStreamingMessage(parts: seq<ContentInput.MessagePart>, messageId: string, contextId: Option<string>,
                                freshSessionId: string, freshMessageId: string, events: seq<Payload>)
      returns (request: Message, resolved: string)
      requires freshSessionId != ""
      modifies this`sessionContextId
      ensures contextId.Some? && contextId.value != "" ==> request.contextId == contextId.value
      ensures !(contextId.Some? && contextId.value != "") ==>
        request.contextId == SessionIdCall(old(sessionContextId), freshSessionId).0
      ensures IsStreamingRequest(request, parts, messageId, freshMessageId, request.contextId)
      ensures resolved == LastContextId(request.contextId, events)
      ensures SomeContextId(events) ==> sessionContextId == Some(resolved)
      ensures !SomeContextId(events) && contextId.Some? && contextId.value != "" ==>
        sessionContextId == old(sessionContextId)
      ensures !SomeContextId(events) && !(contextId.Some? && contextId.value != "") ==>
        sessionContextId == SessionIdCall(old(sessionContextId), freshSessionId).1
    {
      var sessionId: string;
      if contextId.Some? && contextId.value != "" {
        sessionId := contextId.value;
      } else {
        sessionId := GetOrCreateSessionContextId(freshSessionId);
      }
      var agentParts := EncodeParts(parts, Base64Text);
      request := Message(OrDefault(messageId, freshMessageId), sessionId, "", RoleUser, agentParts, []);
      resolved := ResolveContextId(sessionId, events);
    }

    /**
     * `sendFunctionResponse`: one data part `{id, name, response}` tagged as a function
     * response, referring to the task when there is one.
     */
    method SendFunctionResponse(contextId: string, taskId: string, callId: string, callName: string,
                                responsePayload: map<string, Value>, freshMessageId: string, events: seq<Payload>)
      returns (request: Message, resolved: string)
      modifies this`sessionContextId
      ensures request.role == RoleUser && request.contextId == contextId && request.taskId == taskId
      ensures request.messageId == freshMessageId
      ensures request.parts == [FunctionResponsePart(callId, callName, responsePayload)]
      ensures taskId == "" ==> request.referenceTaskIds == []
      ensures taskId != "" ==> request.referenceTaskIds == [taskId]
      ensures resolved == LastContextId(contextId, events)
      ensures SomeContextId(events) ==> sessionContextId == Some(resolved)
      ensures !SomeContextId(events) ==> sessionContextId == old(sessionContextId)
    {
      var part := FunctionResponsePart(callId, callName, responsePayload);
      request := Message(freshMessageId, contextId, OrDefault(taskId, ""), RoleUser, [part],
        if taskId != "" then [taskId] else []);
      resolved := ResolveContextId(contextId, events);
    }
  }

  /** The index the insertion loop stops at is the one `InsertIndex` names. */
  lemma InsertIndexIsFirstLater(ms: seq<UnifiedMessage>, t: int, k: nat)
    requires k <= |ms|
    requires forall j :: 0 <= j < k ==> ms[j].timestamp <= t
    requires k < |ms| ==> ms[k].timestamp > t
    ensures k == InsertIndex(ms, t)
  {
  }
}
