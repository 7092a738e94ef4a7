/**
 * The BFF side of the custom agent headers: the `X-A2A-Agent-Headers` request header is
 * parsed into a string map and carried to the agent call in the request context.
 */
module HeadersContext {
  import opened Wrappers
  import JsonText
  import AgentHeaders

  const AgentHeadersHeader := "X-A2A-Agent-Headers"

  /** A Go `map[string]string`, where `None` is the nil map. */
  type StringMap = Option<map<string, string>>

  /** What `json.Unmarshal` into a `map[string]string` gives: an error, or the map (nil for JSON `null`). */
  datatype UnmarshalResult = UnmarshalError | Unmarshalled(m: StringMap)

  /** Request headers by canonical name; `Header.Get` reads the first value. */
  type Header = map<string, seq<string>>

  function HeaderGet(h: Header, name: string): (v: string)
    ensures name !in h || h[name] == [] ==> v == ""
    ensures name in h && h[name] != [] ==> v == h[name][0]
  {
    if name in h && h[name] != [] then h[name][0] else ""
  }

  /** `ExtractAgentHeaders`, with `json.Unmarshal` supplied by the caller. */
  function ExtractAgentHeaders(h: Header, unmarshal: string -> UnmarshalResult): (m: StringMap)
    ensures HeaderGet(h, AgentHeadersHeader) == "" ==> m.None?
    ensures HeaderGet(h, AgentHeadersHeader) != "" && unmarshal(HeaderGet(h, AgentHeadersHeader)).UnmarshalError? ==> m.None?
    ensures HeaderGet(h, AgentHeadersHeader) != "" && unmarshal(HeaderGet(h, AgentHeadersHeader)).Unmarshalled? ==>
      m == unmarshal(HeaderGet(h, AgentHeadersHeader)).m
  {
    var v := HeaderGet(h, AgentHeadersHeader);
    if v == "" then None
    else
      match unmarshal(v)
      case UnmarshalError => None
      case Unmarshalled(m) => m
  }

  /** Context keys: the agent-headers key, or any other key. */
  datatype ContextKey = AgentHeadersKey | OtherKey(name: string)

  /** Values stored in a context: a string map (possibly nil) or something else. */
  datatype ContextValue = MapValue(m: StringMap) | OtherValue(text: string)

  /** `context.Background()` and `context.WithValue`. */
  datatype Context = Background | WithValue(parent: Context, key: ContextKey, val: ContextValue)

  /** `ctx.Value(key)`: the nearest value stored under `key`, or nil. */
  function Value(ctx: Context, key: ContextKey): Option<ContextValue> {
    match ctx
    case Background => None
    case WithValue(parent, k, v) => if k == key then Some(v) else Value(parent, key)
  }

  /** `AgentHeadersFromContext`: the stored map, or nil when none is stored or it is not a string map. */
  function AgentHeadersFromContext(ctx: Context): (m: StringMap)
    ensures Value(ctx, AgentHeadersKey).None? ==> m.None?
    ensures (match Value(ctx, AgentHeadersKey) case Some(MapValue(x)) => m == x case _ => m.None?)
  {
    match Value(ctx, AgentHeadersKey)
    case None => None
    case Some(v) => if v.MapValue? then v.m else None
  }

  /** `WithAgentHeaders`: a nil map leaves the context as it is. */
  function WithAgentHeaders(ctx: Context, headers: StringMap): (c: Context)
    ensures headers.None? ==> c == ctx
    ensures headers.Some? ==> c == WithValue(ctx, AgentHeadersKey, MapValue(headers))
  {
    if headers.None? then ctx else WithValue(ctx, AgentHeadersKey, MapValue(headers))
  }

  /** Attached headers are read back as they were. */
  lemma HeadersRoundTrip(ctx: Context, h: map<string, string>)
    ensures AgentHeadersFromContext(WithAgentHeaders(ctx, Some(h))) == Some(h)
  {
  }

  /** Without any attach there is nothing to read. */
  lemma NoHeadersInBackground()
    ensures AgentHeadersFromContext(Background) == None
  {
  }

  /** Values stored under other keys neither hide nor replace the headers. */
  lemma {:induction false} OtherKeysTransparent(ctx: Context, name: string, v: ContextValue)
    ensures AgentHeadersFromContext(WithValue(ctx, OtherKey(name), v)) == AgentHeadersFromContext(ctx)
  {
  }

  /** The latest attach wins over an earlier one. */
  lemma LatestAttachWins(ctx: Context, h1: map<string, string>, h2: map<string, string>)
    ensures AgentHeadersFromContext(WithAgentHeaders(WithAgentHeaders(ctx, Some(h1)), Some(h2))) == Some(h2)
  {
  }

  /** An unmarshal that reads the compact JSON objects the browser writes. */
  function CompactUnmarshal(text: string): UnmarshalResult {
    match JsonText.ParseObject(text)
    case None => UnmarshalError
    case Some(pairs) => Unmarshalled(Some(JsonText.ToMap(pairs)))
  }

  /**
   * From the header rows the user edits to the map the agent call sees: when the browser
   * sends `getHeadersJson()` as `X-A2A-Agent-Headers`, the BFF extracts exactly the
   * headers object, each trimmed key with the value of its last row.
   */
  lemma BrowserHeadersReachAgent(rows: seq<AgentHeaders.HeaderEntry>, ctx: Context)
    requires AgentHeaders.HeadersJson(rows).Some?
    ensures var h := map[AgentHeadersHeader := [AgentHeaders.HeadersJson(rows).value]];
      var m := AgentHeadersFromContext(WithAgentHeaders(ctx, ExtractAgentHeaders(h, CompactUnmarshal)));
      m == Some(JsonText.ToMap(AgentHeaders.HeadersObject(rows)))
  {
    var text := AgentHeaders.HeadersJson(rows).value;
    var m := JsonText.ToMap(AgentHeaders.HeadersObject(rows));
    var h := map[AgentHeadersHeader := [text]];
    assert HeaderGet(h, AgentHeadersHeader) == text;
    assert text != "" by {
      assert JsonText.ParseObject("") == None;
    }
    assert CompactUnmarshal(text) == Unmarshalled(Some(m));
    assert ExtractAgentHeaders(h, CompactUnmarshal) == Some(m);
    HeadersRoundTrip(ctx, m);
  }

  /** With distinct keys, the map holds each pair's value under its key. */
  lemma {:induction false} ToMapAt(o: JsonText.Pairs, i: nat)
    requires AgentHeaders.UniqueKeys(o) && i < |o|
    ensures o[i].0 in JsonText.ToMap(o) && JsonText.ToMap(o)[o[i].0] == o[i].1
  {
    var init := o[..|o| - 1];
    if i < |o| - 1 {
      assert AgentHeaders.UniqueKeys(init) by {
        forall a, b | 0 <= a < b < |init| ensures init[a].0 != init[b].0 {
          assert init[a] == o[a] && init[b] == o[b];
        }
      }
      ToMapAt(init, i);
      assert init[i] == o[i];
      assert o[|o| - 1].0 != o[i].0;
    }
  }

  /** The agent call sees, for each trimmed key, the value of the last row with that key. */
  lemma AgentSeesLastRow(rows: seq<AgentHeaders.HeaderEntry>, i: nat)
    requires i < |rows| && AgentHeaders.RowKey(rows[i]) != ""
    requires forall j :: i < j < |rows| ==> AgentHeaders.RowKey(rows[j]) != AgentHeaders.RowKey(rows[i])
    ensures var m := JsonText.ToMap(AgentHeaders.HeadersObject(rows));
      AgentHeaders.RowKey(rows[i]) in m && m[AgentHeaders.RowKey(rows[i])] == rows[i].value
  {
    var o := AgentHeaders.HeadersObject(rows);
    var k := AgentHeaders.RowKey(rows[i]);
    AgentHeaders.HeadersObjectLastWins(rows, i);
    var j :| 0 <= j < |o| && o[j].0 == k;
    ToMapAt(o, j);
  }
}
