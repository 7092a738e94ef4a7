/**
 * The command line's agent URL check: the URL is trimmed, gRPC takes a bare
 * `host:port` (a leading `http://` or `https://` is dropped) and JSON-RPC needs a full
 * `http://` or `https://` URL; the server refuses to start when nothing usable is left.
 */
module AgentUrl {
  import opened Wrappers
  import opened Strings

  datatype Protocol = GRPC | JSONRPC

  const HttpScheme := "http://"
  const HttpsScheme := "https://"
  const DefaultAgentUrl := "localhost:8080"

  /** `strings.TrimPrefix(s, prefix)`. */
  function TrimPrefix(s: string, prefix: string): (r: string)
    ensures StartsWith(s, prefix) ==> prefix + r == s
    ensures !StartsWith(s, prefix) ==> r == s
  {
    if StartsWith(s, prefix) then s[|prefix|..] else s
  }

  /** `normalizeAgentURL`: the address to dial, or `""` when the URL is unusable. */
  function NormalizeAgentURL(url: string, proto: Protocol): (r: string)
    ensures GoTrimSpace(url) == "" ==> r == ""
    ensures proto == GRPC ==> exists k :: 0 <= k <= |GoTrimSpace(url)| && r == GoTrimSpace(url)[k..]
    ensures proto == JSONRPC ==> r == GoTrimSpace(url) || r == ""
  {
    var u := GoTrimSpace(url);
    if u == "" then
      assert u[0..] == "";
      ""
    else if proto == GRPC then
      if StartsWith(u, HttpScheme) then
        assert u[|HttpScheme|..] == u[|HttpScheme|..];
        TrimPrefix(u, HttpScheme)
      else if StartsWith(u, HttpsScheme) then
        assert u[|HttpsScheme|..] == u[|HttpsScheme|..];
        TrimPrefix(u, HttpsScheme)
      else
        assert u == u[0..];
        u
    else if StartsWith(u, HttpScheme) || StartsWith(u, HttpsScheme) then u
    else ""
  }

  /** gRPC: exactly one scheme prefix is dropped, and a URL without one is used as it is. */
  lemma GrpcStripsOneScheme(url: string)
    ensures var u := GoTrimSpace(url);
      NormalizeAgentURL(url, GRPC) ==
        if StartsWith(u, HttpScheme) then u[|HttpScheme|..]
        else if StartsWith(u, HttpsScheme) then u[|HttpsScheme|..]
        else u
  {
  }

  /** A string that starts with a prefix is empty after it exactly when it is the prefix. */
  lemma RestEmptyExactly(u: string, prefix: string)
    requires StartsWith(u, prefix)
    ensures u[|prefix|..] == "" <==> u == prefix
  {
    assert u == u[..|prefix|] + u[|prefix|..];
  }

  /** gRPC yields `""` only for a blank URL or a bare scheme. */
  lemma GrpcEmptyExactly(url: string)
    ensures NormalizeAgentURL(url, GRPC) == "" <==> GoTrimSpace(url) in {"", HttpScheme, HttpsScheme}
  {
    var u := GoTrimSpace(url);
    assert !StartsWith(HttpsScheme, HttpScheme) by {
      assert HttpsScheme[..|HttpScheme|][4] != HttpScheme[4];
    }
    assert StartsWith(HttpScheme, HttpScheme) && StartsWith(HttpsScheme, HttpsScheme);
    GrpcStripsOneScheme(url);
    if StartsWith(u, HttpScheme) {
      RestEmptyExactly(u, HttpScheme);
    } else if StartsWith(u, HttpsScheme) {
      RestEmptyExactly(u, HttpsScheme);
    }
  }

  /** JSON-RPC: a trimmed URL with a scheme is kept exactly, anything else is refused. */
  lemma JsonRpcAcceptsExactly(url: string)
    ensures var u := GoTrimSpace(url);
      NormalizeAgentURL(url, JSONRPC) == (if StartsWith(u, HttpScheme) || StartsWith(u, HttpsScheme) then u else "")
  {
  }

  /** A trimmed string has no surrounding Go white space, so trimming it again changes nothing. */
  lemma GoTrimSpaceIdempotent(s: string)
    ensures GoTrimSpace(GoTrimSpace(s)) == GoTrimSpace(s)
  {
    TrimIdempotent(s, IsGoSpace);
  }

  /** JSON-RPC normalisation is idempotent. */
  lemma JsonRpcIdempotent(url: string)
    ensures NormalizeAgentURL(NormalizeAgentURL(url, JSONRPC), JSONRPC) == NormalizeAgentURL(url, JSONRPC)
  {
    var u := GoTrimSpace(url);
    var r := NormalizeAgentURL(url, JSONRPC);
    JsonRpcAcceptsExactly(url);
    JsonRpcAcceptsExactly(r);
    if r == "" {
      assert GoTrimSpace(r) == "";
    } else {
      assert r == u;
      GoTrimSpaceIdempotent(url);
    }
  }

  /** The reason `runServe` gives for refusing to start. */
  datatype StartError = InvalidAgentURL(agentURL: string, proto: Protocol)

  datatype StartCheck = Start(normalizedURL: string) | Refuse(err: StartError)

  /** The check at the start of `runServe`: `--jsonrpc` picks the protocol, and `""` is refused. */
  function RunServeCheck(agentURL: string, useJSONRPC: bool): (c: StartCheck)
    ensures c.Refuse? <==> NormalizeAgentURL(agentURL, if useJSONRPC then JSONRPC else GRPC) == ""
    ensures c.Start? ==> c.normalizedURL == NormalizeAgentURL(agentURL, if useJSONRPC then JSONRPC else GRPC)
    ensures c.Refuse? ==> c.err.agentURL == agentURL
  {
    var proto := if useJSONRPC then JSONRPC else GRPC;
    var normalized := NormalizeAgentURL(agentURL, proto);
    if normalized == "" then Refuse(InvalidAgentURL(agentURL, proto)) else Start(normalized)
  }

  /** The flag's default has no surrounding space and no scheme. */
  lemma DefaultUrlIsBare()
    ensures GoTrimSpace(DefaultAgentUrl) == DefaultAgentUrl != ""
    ensures !StartsWith(DefaultAgentUrl, HttpScheme) && !StartsWith(DefaultAgentUrl, HttpsScheme)
  {
    var u := DefaultAgentUrl;
    assert u[0] == 'l' && u[|u| - 1] == '0';
    TrimKeeps(u, IsGoSpace);
    assert u[..|HttpScheme|][0] != HttpScheme[0];
    assert u[..|HttpsScheme|][0] != HttpsScheme[0];
  }

  /** The flag's default starts over gRPC and is refused over JSON-RPC, which needs a scheme. */
  lemma DefaultUrlByProtocol()
    ensures RunServeCheck(DefaultAgentUrl, false) == Start(DefaultAgentUrl)
    ensures RunServeCheck(DefaultAgentUrl, true).Refuse?
  {
    DefaultUrlIsBare();
    GrpcStripsOneScheme(DefaultAgentUrl);
    JsonRpcAcceptsExactly(DefaultAgentUrl);
  }
}
