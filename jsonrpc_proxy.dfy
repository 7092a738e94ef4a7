/**
 * The BFF's JSON-RPC proxy: it serves the Connect A2A service by forwarding each call to
 * a JSON-RPC agent through a lazily created client, and maps agent errors onto Connect
 * codes. The client library's calls and the protobuf conversions are given as outcomes.
 */
module JsonRpcProxy {
  import opened Wrappers

  /** The a2a sentinel errors the mapping distinguishes, and any other one by name. */
  datatype Sentinel =
    | ErrTaskNotFound | ErrInvalidRequest | ErrInvalidParams | ErrMethodNotFound
    | ErrUnauthenticated | ErrUnauthorized | OtherSentinel(name: string)

  /**
   * A Go error value: `io.EOF`, an a2a sentinel, an `*a2a.Error` around an error (it
   * unwraps to that error), an `fmt.Errorf("...%w")` wrapper, `errors.Join` of two errors,
   * or an error that wraps nothing.
   */
  datatype GoError =
    | EOF
    | A2ASentinel(s: Sentinel)
    | A2AError(err: GoError)
    | Wrapped(msg: string, inner: GoError)
    | Joined(first: GoError, second: GoError)
    | Plain(msg: string)

  /** `errors.Is(e, target)` for a comparable target: `e` or anything it wraps is the target. */
  predicate Is(e: GoError, target: GoError) {
    e == target ||
    match e
    case A2AError(x) => Is(x, target)
    case Wrapped(_, x) => Is(x, target)
    case Joined(a, b) => Is(a, target) || Is(b, target)
    case _ => false
  }

  /** `errors.As(e, &a2aErr)`: the `Err` field of the first `*a2a.Error` found depth first. */
  function AsA2AError(e: GoError): (r: Option<GoError>)
    ensures r.Some? ==> r.value < e
  {
    match e
    case A2AError(x) => Some(x)
    case Wrapped(_, x) => AsA2AError(x)
    case Joined(a, b) => if AsA2AError(a).Some? then AsA2AError(a) else AsA2AError(b)
    case _ => None
  }

  /** The Connect codes, which are the gRPC status codes. */
  datatype Code =
    | Canceled | Unknown | InvalidArgument | DeadlineExceeded | NotFound | AlreadyExists
    | PermissionDenied | ResourceExhausted | FailedPrecondition | Aborted | OutOfRange
    | Unimplemented | Internal | Unavailable | DataLoss | Unauthenticated

  function CodeNumber(c: Code): (n: int)
    ensures 1 <= n <= 16
  {
    match c
    case Canceled => 1 case Unknown => 2 case InvalidArgument => 3 case DeadlineExceeded => 4
    case NotFound => 5 case AlreadyExists => 6 case PermissionDenied => 7 case ResourceExhausted => 8
    case FailedPrecondition => 9 case Aborted => 10 case OutOfRange => 11 case Unimplemented => 12
    case Internal => 13 case Unavailable => 14 case DataLoss => 15 case Unauthenticated => 16
  }

  lemma CodeNumbersDistinct(a: Code, b: Code)
    requires CodeNumber(a) == CodeNumber(b)
    ensures a == b
  {
  }

  /** `connect.NewError(code, cause)`. */
  datatype ConnectError = ConnectError(code: Code, cause: GoError)

  /** The Connect code for an a2a error's `Err`, checked in the source's order. */
  function A2ACode(x: GoError): (c: Code)
    ensures Is(x, A2ASentinel(ErrTaskNotFound)) ==> c == NotFound
    ensures c == Unknown <==>
      !Is(x, A2ASentinel(ErrTaskNotFound)) && !Is(x, A2ASentinel(ErrInvalidRequest)) && !Is(x, A2ASentinel(ErrInvalidParams))
      && !Is(x, A2ASentinel(ErrMethodNotFound)) && !Is(x, A2ASentinel(ErrUnauthenticated)) && !Is(x, A2ASentinel(ErrUnauthorized))
  {
    if Is(x, A2ASentinel(ErrTaskNotFound)) then NotFound
    else if Is(x, A2ASentinel(ErrInvalidRequest)) || Is(x, A2ASentinel(ErrInvalidParams)) then InvalidArgument
    else if Is(x, A2ASentinel(ErrMethodNotFound)) then Unimplemented
    else if Is(x, A2ASentinel(ErrUnauthenticated)) then Unauthenticated
    else if Is(x, A2ASentinel(ErrUnauthorized)) then PermissionDenied
    else Unknown
  }

  /** `toConnectError`: nil for nil and for an end of stream, otherwise a Connect error around the original. */
  function ToConnectError(err: Option<GoError>): (r: Option<ConnectError>)
    ensures r.None? <==> err.None? || Is(err.value, EOF)
    ensures r.Some? ==> r.value.cause == err.value
    ensures r.Some? && AsA2AError(err.value).None? ==> r.value.code == Unknown
    ensures r.Some? ==> r.value.code in {NotFound, InvalidArgument, Unimplemented, Unauthenticated, PermissionDenied, Unknown}
  {
    match err
    case None => None
    case Some(e) =>
      if Is(e, EOF) then None
      else
        match AsA2AError(e)
        case Some(x) => Some(ConnectError(A2ACode(x), e))
        case None => Some(ConnectError(Unknown, e))
  }

  /** The table for an `*a2a.Error` around a single sentinel. */
  lemma SentinelTable(s: Sentinel)
    ensures var r := ToConnectError(Some(A2AError(A2ASentinel(s))));
      r.Some? &&
      r.value.code == match s
        case ErrTaskNotFound => NotFound
        case ErrInvalidRequest => InvalidArgument
        case ErrInvalidParams => InvalidArgument
        case ErrMethodNotFound => Unimplemented
        case ErrUnauthenticated => Unauthenticated
        case ErrUnauthorized => PermissionDenied
        case OtherSentinel(_) => Unknown
  {
    var x := A2ASentinel(s);
    assert !Is(A2AError(x), EOF) by {
      assert !Is(x, EOF);
    }
    assert AsA2AError(A2AError(x)) == Some(x);
    assert forall t :: Is(x, A2ASentinel(t)) <==> t == s;
  }

  /** The cases are tried in order: an error that is both "task not found" and "unauthorized" is NotFound. */
  lemma EarlierCaseWins()
    ensures var e := A2AError(Joined(A2ASentinel(ErrUnauthorized), A2ASentinel(ErrTaskNotFound)));
      ToConnectError(Some(e)) == Some(ConnectError(NotFound, e))
  {
  }

  /** An end of stream is not an error, even inside an a2a error or a wrapper. */
  lemma EofIsNoError(msg: string)
    ensures ToConnectError(Some(Wrapped(msg, A2AError(EOF)))).None?
  {
    assert Is(A2AError(EOF), EOF);
  }

  /** Wrapping an error with a message maps it to the same code. */
  lemma WrappingKeepsCode(msg: string, e: GoError)
    ensures var r := ToConnectError(Some(Wrapped(msg, e)));
      var s := ToConnectError(Some(e));
      r.None? == s.None? && (r.Some? ==> r.value.code == s.value.code)
  {
  }

  /** A plain error the agent returns becomes Unknown. */
  lemma PlainIsUnknown(msg: string)
    ensures ToConnectError(Some(Plain(msg))) == Some(ConnectError(Unknown, Plain(msg)))
  {
  }

  /** The agent client; it is created for the proxy's endpoint. */
  datatype Client = Client(endpoint: string)

  /** The outcome of one step the proxy cannot see into: a client call or a conversion. */
  datatype Outcome<T> = Ok(value: T) | Fail(err: GoError)

  /** The error a handler returns: a Connect error, or the stream's own error passed through. */
  datatype HandlerError = Connect(e: ConnectError) | Raw(err: GoError)

  /** A unary handler's `(response, error)` pair; `NoResponse` is `(nil, nil)`. */
  datatype UnaryResult<T> = Response(value: T) | Error(err: HandlerError) | NoResponse

  /** The cache after `getClient` and what it returns, given what creating a client would give. */
  function GetClientSpec(cache: Option<Client>, created: Outcome<Client>): (r: (Option<Client>, Outcome<Client>))
    ensures cache.Some? ==> r == (cache, Ok(cache.value))
    ensures cache.None? ==> r.1 == created
    ensures cache.None? ==> (r.0.Some? <==> created.Ok?)
    ensures r.0.Some? && r.1.Ok? ==> r.1.value == r.0.value
  {
    if cache.Some? then (cache, Ok(cache.value))
    else if created.Ok? then (Some(created.value), created)
    else (None, created)
  }

  /** Once a client is cached, every later call returns it, whatever creation would give. */
  lemma CachedClientIsStable(cache: Option<Client>, c1: Outcome<Client>, c2: Outcome<Client>)
    requires GetClientSpec(cache, c1).1.Ok?
    ensures GetClientSpec(GetClientSpec(cache, c1).0, c2) == GetClientSpec(cache, c1)
  {
  }

  /** A failed creation caches nothing: the next call tries again. */
  lemma FailedCreationRetries(c1: GoError, c2: Outcome<Client>)
    ensures GetClientSpec(GetClientSpec(None, Fail(c1)).0, c2) == GetClientSpec(None, c2)
  {
  }

  /**
   * One unary forward after the client is obtained: convert the request, call the agent,
   * convert the answer. A failing step ends the handler with its code.
   */
  function UnaryForward<T>(client: Outcome<Client>, params: Outcome<()>, call: Outcome<()>, answer: Outcome<T>): (r: UnaryResult<T>)
    ensures client.Fail? <==> r.Error? && r.err.Connect? && r.err.e.code == Unavailable
    ensures r.Response? <==> client.Ok? && params.Ok? && call.Ok? && answer.Ok?
    ensures r.NoResponse? <==> client.Ok? && params.Ok? && call.Fail? && Is(call.err, EOF)
    ensures client.Fail? ==> r == Error(Connect(ConnectError(Unavailable, client.err)))
    ensures client.Ok? && params.Fail? ==> r == Error(Connect(ConnectError(InvalidArgument, params.err)))
    ensures client.Ok? && params.Ok? && call.Fail? && !Is(call.err, EOF) ==>
      r == Error(Connect(ToConnectError(Some(call.err)).value))
    ensures client.Ok? && params.Ok? && call.Ok? && answer.Fail? ==>
      r == Error(Connect(ConnectError(Internal, answer.err)))
    ensures r.Response? ==> r.value == answer.value
  {
    if client.Fail? then Error(Connect(ConnectError(Unavailable, client.err)))
    else if params.Fail? then Error(Connect(ConnectError(InvalidArgument, params.err)))
    else if call.Fail? then
      match ToConnectError(Some(call.err))
      case None => NoResponse
      case Some(ce) => Error(Connect(ce))
    else if answer.Fail? then Error(Connect(ConnectError(Internal, answer.err)))
    else Response(answer.value)
  }

  /**
   * As written, a unary call whose error chain holds `io.EOF` (what decoding an empty
   * JSON body gives) makes the handler return neither a response nor an error.
   */
  lemma UnaryEofGivesNeither(msg: string)
    ensures UnaryForward<int>(Ok(Client("")), Ok(()), Fail(Wrapped(msg, EOF)), Ok(0)) == NoResponse
  {
    assert Is(Wrapped(msg, EOF), EOF);
  }

  /** The error mapping for unary calls: an end of stream there is an error like any other. */
  function ToConnectErrorUnary(e: GoError): (ce: ConnectError)
    ensures ce.cause == e
    ensures !Is(e, EOF) ==> Some(ce) == ToConnectError(Some(e))
  {
    if Is(e, EOF) then ConnectError(Unknown, e) else ToConnectError(Some(e)).value
  }

  function UnaryForwardAnswering<T>(client: Outcome<Client>, params: Outcome<()>, call: Outcome<()>, answer: Outcome<T>): (r: UnaryResult<T>)
    ensures !r.NoResponse?
    ensures r.Response? <==> client.Ok? && params.Ok? && call.Ok? && answer.Ok?
    ensures client.Fail? <==> r.Error? && r.err.Connect? && r.err.e.code == Unavailable
    ensures !(call.Fail? && Is(call.err, EOF)) ==> r == UnaryForward(client, params, call, answer)
  {
    if client.Fail? then Error(Connect(ConnectError(Unavailable, client.err)))
    else if params.Fail? then Error(Connect(ConnectError(InvalidArgument, params.err)))
    else if call.Fail? then Error(Connect(ToConnectErrorUnary(call.err)))
    else if answer.Fail? then Error(Connect(ConnectError(Internal, answer.err)))
    else Response(answer.value)
  }

  /** One item of the agent's event stream: an event (its id here) or the iterator's error. */
  datatype StreamItem = Event(id: int) | StreamError(err: GoError)

  /** How a streaming handler ends: `nil`, or an error. */
  datatype StreamEnd = Completed | Ended(err: HandlerError)

  /**
   * The forwarding loop from the `sent`-th send on: each event is converted and sent; the
   * first stream error, conversion error or send error ends the handler.
   */
  function Forward(items: seq<StreamItem>, convertFails: int -> Option<GoError>, sendFails: nat -> Option<GoError>, sent: nat): (r: (seq<int>, StreamEnd))
    ensures |r.0| <= |items|
    decreases |items|
  {
    if items == [] then ([], Completed)
    else
      match items[0]
      case StreamError(e) => ([], StreamErrorEnd(e))
      case Event(x) =>
        if convertFails(x).Some? then ([], Ended(Connect(ConnectError(Internal, convertFails(x).value))))
        else if sendFails(sent).Some? then ([], Ended(Raw(sendFails(sent).value)))
        else
          var rest := Forward(items[1..], convertFails, sendFails, sent + 1);
          ([x] + rest.0, rest.1)
  }

  /** The events sent are the first items of the stream, in arrival order. */
  lemma {:induction false} SentArePrefix(items: seq<StreamItem>, convertFails: int -> Option<GoError>, sendFails: nat -> Option<GoError>, sent: nat)
    ensures var r := Forward(items, convertFails, sendFails, sent);
      forall i :: 0 <= i < |r.0| ==> items[i] == Event(r.0[i])
    decreases |items|
  {
    if items != [] && items[0].Event? && convertFails(items[0].id).None? && sendFails(sent).None? {
      var rest := Forward(items[1..], convertFails, sendFails, sent + 1);
      SentArePrefix(items[1..], convertFails, sendFails, sent + 1);
      var r := Forward(items, convertFails, sendFails, sent);
      assert r.0 == [items[0].id] + rest.0;
      forall i | 0 <= i < |r.0| ensures items[i] == Event(r.0[i]) {
        if i > 0 {
          assert r.0[i] == rest.0[i - 1] && items[1..][i - 1] == items[i];
        }
      }
    }
  }

  /** The ids of a run of events. */
  function EventIds(items: seq<StreamItem>): seq<int>
    requires forall i :: 0 <= i < |items| ==> items[i].Event?
  {
    if items == [] then [] else [items[0].id] + EventIds(items[1..])
  }

  /** With no error anywhere, every event is forwarded, in arrival order, and the handler ends cleanly. */
  lemma {:induction false} AllForwarded(items: seq<StreamItem>, convertFails: int -> Option<GoError>, sendFails: nat -> Option<GoError>, sent: nat)
    requires forall i :: 0 <= i < |items| ==> items[i].Event? && convertFails(items[i].id).None?
    requires forall n :: sent <= n ==> sendFails(n).None?
    ensures Forward(items, convertFails, sendFails, sent) == (EventIds(items), Completed)
    decreases |items|
  {
    if items != [] {
      AllForwarded(items[1..], convertFails, sendFails, sent + 1);
    }
  }

  /** How a stream error ends the handler: cleanly for an end of stream, otherwise with its mapped code. */
  function StreamErrorEnd(e: GoError): (end: StreamEnd)
    ensures end == Completed <==> Is(e, EOF)
  {
    match ToConnectError(Some(e))
    case None => Completed
    case Some(ce) => Ended(Connect(ce))
  }

  /** Nothing at or after a stream error is forwarded. */
  lemma {:induction false} StopsAtStreamError(items: seq<StreamItem>, k: nat, convertFails: int -> Option<GoError>, sendFails: nat -> Option<GoError>, sent: nat)
    requires k < |items| && items[k].StreamError?
    ensures |Forward(items, convertFails, sendFails, sent).0| <= k
    decreases k
  {
    if k > 0 && items[0].Event? && convertFails(items[0].id).None? && sendFails(sent).None? {
      assert items[1..][k - 1] == items[k];
      StopsAtStreamError(items[1..], k - 1, convertFails, sendFails, sent + 1);
    }
  }

  /** When every event before the first stream error goes through, that error decides how the handler ends. */
  lemma {:induction false} EndsAtStreamError(items: seq<StreamItem>, k: nat, convertFails: int -> Option<GoError>, sendFails: nat -> Option<GoError>, sent: nat)
    requires k < |items| && items[k].StreamError?
    requires forall i :: 0 <= i < k ==> items[i].Event? && convertFails(items[i].id).None? && sendFails(sent + i).None?
    ensures Forward(items, convertFails, sendFails, sent).1 == StreamErrorEnd(items[k].err)
    decreases k
  {
    if k == 0 {
      assert Forward(items, convertFails, sendFails, sent) == ([], StreamErrorEnd(items[0].err));
    } else {
      assert items[0].Event? && convertFails(items[0].id).None? && sendFails(sent + 0).None?;
      var rest := items[1..];
      assert rest[k - 1] == items[k];
      forall i | 0 <= i < k - 1
        ensures rest[i].Event? && convertFails(rest[i].id).None? && sendFails(sent + 1 + i).None?
      {
        assert rest[i] == items[i + 1];
        assert sent + 1 + i == sent + (i + 1);
      }
      EndsAtStreamError(rest, k - 1, convertFails, sendFails, sent + 1);
      var r := Forward(rest, convertFails, sendFails, sent + 1);
      assert Forward(items, convertFails, sendFails, sent) == ([items[0].id] + r.0, r.1);
    }
  }

  /** The whole streaming handler: client, request conversion, then the loop. */
  function StreamHandler(client: Outcome<Client>, params: Outcome<()>, items: seq<StreamItem>, convertFails: int -> Option<GoError>, sendFails: nat -> Option<GoError>): (r: (seq<int>, StreamEnd))
    ensures client.Fail? ==> r == ([], Ended(Connect(ConnectError(Unavailable, client.err))))
    ensures client.Ok? && params.Fail? ==> r == ([], Ended(Connect(ConnectError(InvalidArgument, params.err))))
    ensures client.Ok? && params.Ok? ==> r == Forward(items, convertFails, sendFails, 0)
  {
    if client.Fail? then ([], Ended(Connect(ConnectError(Unavailable, client.err))))
    else if params.Fail? then ([], Ended(Connect(ConnectError(InvalidArgument, params.err))))
    else Forward(items, convertFails, sendFails, 0)
  }

  /** One step of the loop: what the item at `i` does with the rest of the stream. */
  lemma ForwardUnfold(items: seq<StreamItem>, i: nat, convertFails: int -> Option<GoError>, sendFails: nat -> Option<GoError>)
    requires i < |items|
    ensures var here := Forward(items[i..], convertFails, sendFails, i);
      var next := Forward(items[i + 1..], convertFails, sendFails, i + 1);
      match items[i]
      case StreamError(e) => here == ([], StreamErrorEnd(e))
      case Event(x) =>
        if convertFails(x).Some? then here == ([], Ended(Connect(ConnectError(Internal, convertFails(x).value))))
        else if sendFails(i).Some? then here == ([], Ended(Raw(sendFails(i).value)))
        else here == ([x] + next.0, next.1)
  {
    assert items[i..][0] == items[i];
    assert items[i..][1..] == items[i + 1..];
  }

  /** The `for ... range` loop over the agent's stream: convert each event and send it, stopping at the first error. */
  method ForwardLoop(items: seq<StreamItem>, convertFails: int -> Option<GoError>, sendFails: nat -> Option<GoError>)
    returns (sent: seq<int>, end: StreamEnd)
    ensures (sent, end) == Forward(items, convertFails, sendFails, 0)
  {
    sent := [];
    var i := 0;
    assert items[0..] == items;
    assert sent + Forward(items, convertFails, sendFails, 0).0 == Forward(items, convertFails, sendFails, 0).0;
    while i < |items|
      invariant 0 <= i <= |items| && |sent| == i
      invariant Forward(items, convertFails, sendFails, 0) ==
        (sent + Forward(items[i..], convertFails, sendFails, i).0, Forward(items[i..], convertFails, sendFails, i).1)
    {
      ForwardUnfold(items, i, convertFails, sendFails);
      assert sent + [] == sent;
      match items[i]
      case StreamError(e) =>
        var ce := ToConnectError(Some(e));
        if ce.None? {
          return sent, Completed;
        }
        return sent, Ended(Connect(ce.value));
      case Event(x) =>
        if convertFails(x).Some? {
          return sent, Ended(Connect(ConnectError(Internal, convertFails(x).value)));
        }
        if sendFails(i).Some? {
          return sent, Ended(Raw(sendFails(i).value));
        }
        ghost var rest := Forward(items[i + 1..], convertFails, sendFails, i + 1);
        assert sent + ([x] + rest.0) == (sent + [x]) + rest.0;
        sent := sent + [x];
        i := i + 1;
    }
    assert items[i..] == [];
    assert sent + [] == sent;
    return sent, Completed;
  }

  /** `jsonrpcProxy`: the agent URL and the cached client (the mutex is not modelled). */
  class Proxy {
    const agentURL: string
    var client: Option<Client>

    constructor (agentURL: string)
      ensures this.agentURL == agentURL && client.None?
    {
      this.agentURL := agentURL;
      client := None;
    }

    /** `getClient`, with what `a2aclient.NewFromEndpoints` would give as `created`. */
    method GetClient(created: Outcome<Client>) returns (r: Outcome<Client>)
      modifies this`client
      ensures (client, r) == GetClientSpec(old(client), created)
    {
      if client.Some? {
        return Ok(client.value);
      }
      if created.Fail? {
        return created;
      }
      client := Some(created.value);
      return Ok(client.value);
    }

    /**
     * The unary handlers (`SendMessage`, `GetTask`, `CancelTask`, the push-config calls
     * and `GetAgentCard`); a handler without a conversion step passes `Ok` for it.
     */
    method ForwardUnary<T>(created: Outcome<Client>, params: Outcome<()>, call: Outcome<()>, answer: Outcome<T>) returns (r: UnaryResult<T>)
      modifies this`client
      ensures client == GetClientSpec(old(client), created).0
      ensures r == UnaryForward(GetClientSpec(old(client), created).1, params, call, answer)
    {
      var c := GetClient(created);
      if c.Fail? {
        return Error(Connect(ConnectError(Unavailable, c.err)));
      }
      if params.Fail? {
        return Error(Connect(ConnectError(InvalidArgument, params.err)));
      }
      if call.Fail? {
        var ce := ToConnectError(Some(call.err));
        if ce.None? {
          return NoResponse;
        }
        return Error(Connect(ce.value));
      }
      if answer.Fail? {
        return Error(Connect(ConnectError(Internal, answer.err)));
      }
      return Response(answer.value);
    }

    /** `ListTasks`: JSON-RPC agents have no task listing. */
    method ListTasks() returns (r: UnaryResult<()>)
      ensures r.Error? && r.err.Connect? && r.err.e.code == Unimplemented
    {
      return Error(Connect(ConnectError(Unimplemented, Plain("ListTasks is not supported for JSON-RPC agents"))));
    }

    /** `SendStreamingMessage` and `TaskSubscription`: obtain the client, convert the request, run the loop. */
    method ForwardStream(created: Outcome<Client>, params: Outcome<()>, items: seq<StreamItem>,
                         convertFails: int -> Option<GoError>, sendFails: nat -> Option<GoError>)
      returns (sent: seq<int>, end: StreamEnd)
      modifies this`client
      ensures client == GetClientSpec(old(client), created).0
      ensures (sent, end) == StreamHandler(GetClientSpec(old(client), created).1, params, items, convertFails, sendFails)
    {
      var c := GetClient(created);
      if c.Fail? {
        return [], Ended(Connect(ConnectError(Unavailable, c.err)));
      }
      if params.Fail? {
        return [], Ended(Connect(ConnectError(InvalidArgument, params.err)));
      }
      sent, end := ForwardLoop(items, convertFails, sendFails);
    }
  }
}
