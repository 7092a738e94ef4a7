/**
 * The OAuth part of the agent's `adk_request_credential` flow: recognising the request,
 * reading the authorisation URI and config out of it, and building the response payload
 * that returns the authorisation result to the agent.
 */
module OAuth {
  import opened JsValue

  const AdkRequestCredential := "adk_request_credential"

  /** `obj.args?.authConfig?.exchangedAuthCredential?.oauth2` */
  function OAuth2Of(call: Value): Value {
    OptGet(OptGet(OptGet(Get(call, "args"), "authConfig"), "exchangedAuthCredential"), "oauth2")
  }

  /** `...oauth2?.authUri` */
  function AuthUriOf(call: Value): Value {
    OptGet(OAuth2Of(call), "authUri")
  }

  /** `isAuthRequestCall(obj)`: the credential request by name, carrying a non-empty authorisation URI. */
  predicate IsAuthRequestCall(obj: Value) {
    Truthy(obj) && TypeofObject(obj)
    && Get(obj, "name") == Str(AdkRequestCredential)
    && AuthUriOf(obj).Str? && |AuthUriOf(obj).s| > 0
  }

  /** The request is recognised exactly when the object is named so and has the URI at its nested path. */
  lemma AuthRequestShape(obj: Value)
    ensures IsAuthRequestCall(obj) <==>
      obj.Obj? && "name" in obj.fields && obj.fields["name"] == Str(AdkRequestCredential)
      && "args" in obj.fields && Has(obj.fields["args"], "authConfig")
      && Has(obj.fields["args"].fields["authConfig"], "exchangedAuthCredential")
      && Has(obj.fields["args"].fields["authConfig"].fields["exchangedAuthCredential"], "oauth2")
      && var o := obj.fields["args"].fields["authConfig"].fields["exchangedAuthCredential"].fields["oauth2"];
         Has(o, "authUri") && o.fields["authUri"].Str? && o.fields["authUri"].s != ""
  {
  }

  /**
   * `getAuthUriFromCall(call)`: the value at the URI's path, `''` when it is missing.
   * The call is an object (a typed `PendingAuthCall`).
   */
  function GetAuthUriFromCall(call: Value): (r: Value)
    requires !IsNullish(call)
    ensures IsNullish(AuthUriOf(call)) ==> r == Str("")
    ensures IsAuthRequestCall(call) ==> r.Str? && r.s != "" && r == AuthUriOf(call)
  {
    Coalesce(OptGet(OAuth2Of(call), "authUri"), Str(""))
  }

  /** `getAuthConfigFromCall(call)`: `args.authConfig`, or `{}` when it is missing. */
  function GetAuthConfigFromCall(call: Value): (r: Value)
    requires !IsNullish(call)
    ensures IsNullish(OptGet(Get(call, "args"), "authConfig")) ==> r == Obj(map[])
    ensures !IsNullish(OptGet(Get(call, "args"), "authConfig")) ==> r == OptGet(Get(call, "args"), "authConfig")
    ensures !r.Undefined? && !r.Null?
  {
    Coalesce(OptGet(Get(call, "args"), "authConfig"), Obj(map[]))
  }

  /**
   * The casts the code relies on: a truthy `exchangedAuthCredential` is an object, and so is
   * a truthy `oauth2` inside it (otherwise writing a member of it would throw or be lost).
   */
  predicate CastsHold(authConfig: map<string, Value>) {
    var ex := Get(Obj(authConfig), "exchangedAuthCredential");
    (!Truthy(ex) || ex.Obj?) && (!Truthy(Get(ex, "oauth2")) || Get(ex, "oauth2").Obj?)
  }

  /** The copy keeps the shape the casts describe. */
  lemma CloneKeepsCasts(authConfig: map<string, Value>)
    requires CastsHold(authConfig)
    ensures CastsHold(JsonClone(Obj(authConfig)).fields)
  {
    var ex := Get(Obj(authConfig), "exchangedAuthCredential");
    JsonCloneGet(Obj(authConfig), "exchangedAuthCredential");
    assert JsonClone(Obj(authConfig)) == Obj(JsonClone(Obj(authConfig)).fields);
    if ex.Obj? {
      JsonCloneGet(ex, "oauth2");
      var o := Get(ex, "oauth2");
      if !o.Undefined? { JsonCloneTruthy(o); }
    } else if !ex.Undefined? {
      JsonCloneTruthy(ex);
    }
  }

  /** The members of a truthy object, none for a falsy value (`x || {}`). */
  function MembersOrEmpty(v: Value): map<string, Value> {
    if v.Obj? then v.fields else map[]
  }

  /**
   * The payload, stated at once: the deep copy of the config with
   * `exchangedAuthCredential.oauth2.authResponseUri` and `.redirectUri` set, the two
   * intermediate objects created when missing.
   */
  function AuthResponsePayload(authConfig: map<string, Value>, authResponseUrl: string, redirectUri: string): map<string, Value>
  {
    var cfg := JsonClone(Obj(authConfig)).fields;
    var exchanged := MembersOrEmpty(Get(Obj(cfg), "exchangedAuthCredential"));
    var oauth2 := MembersOrEmpty(Get(Obj(exchanged), "oauth2"));
    var oauth2' := oauth2["authResponseUri" := Str(authResponseUrl)]["redirectUri" := Str(redirectUri)];
    cfg["exchangedAuthCredential" := Obj(exchanged["oauth2" := Obj(oauth2')])]
  }

  /**
   * `buildAuthResponsePayload(authConfig, authResponseUrl, redirectUri)` step by step: copy,
   * find or create `exchangedAuthCredential`, find or create `oauth2`, set the two members.
   * Objects are values here, so each object that changes is stored back into its parent.
   */
  method BuildAuthResponsePayload(authConfig: map<string, Value>, authResponseUrl: string, redirectUri: string)
    returns (cfg: map<string, Value>)
    requires CastsHold(authConfig)
    ensures cfg == AuthResponsePayload(authConfig, authResponseUrl, redirectUri)
  {
    cfg := JsonClone(Obj(authConfig)).fields;
    CloneKeepsCasts(authConfig);
    ghost var copy := cfg;
    var exchanged := Get(Obj(cfg), "exchangedAuthCredential");
    ghost var exMembers := MembersOrEmpty(exchanged);
    if !Truthy(exchanged) {
      exchanged := Obj(map[]);
      cfg := cfg["exchangedAuthCredential" := exchanged];
    }
    assert exchanged == Obj(exMembers);
    var oauth2 := Get(exchanged, "oauth2");
    ghost var o2Members := MembersOrEmpty(oauth2);
    if !Truthy(oauth2) {
      oauth2 := Obj(map[]);
      exchanged := Obj(exchanged.fields["oauth2" := oauth2]);
      cfg := cfg["exchangedAuthCredential" := exchanged];
    }
    assert oauth2 == Obj(o2Members);
    assert exchanged.fields == exMembers || exchanged.fields == exMembers["oauth2" := Obj(map[])];
    assert cfg == copy || cfg == copy["exchangedAuthCredential" := exchanged];
    oauth2 := Obj(oauth2.fields["authResponseUri" := Str(authResponseUrl)]);
    oauth2 := Obj(oauth2.fields["redirectUri" := Str(redirectUri)]);
    assert exchanged.fields["oauth2" := oauth2] == exMembers["oauth2" := oauth2];
    exchanged := Obj(exchanged.fields["oauth2" := oauth2]);
    assert cfg["exchangedAuthCredential" := exchanged] == copy["exchangedAuthCredential" := exchanged];
    cfg := cfg["exchangedAuthCredential" := exchanged];
  }

  /** The two members are set at the nested path. */
  lemma PayloadSetsUris(authConfig: map<string, Value>, authResponseUrl: string, redirectUri: string)
    ensures var p := AuthResponsePayload(authConfig, authResponseUrl, redirectUri);
      "exchangedAuthCredential" in p && Has(p["exchangedAuthCredential"], "oauth2")
      && var o := p["exchangedAuthCredential"].fields["oauth2"];
         Get(o, "authResponseUri") == Str(authResponseUrl) && Get(o, "redirectUri") == Str(redirectUri)
  {
  }

  /**
   * Every other member is a copy of the original's: the config's other members, the
   * credential's other members, and the other `oauth2` members such as `authUri`
   * (members whose value is undefined are dropped by the copy).
   */
  lemma PayloadPreservesOthers(authConfig: map<string, Value>, authResponseUrl: string, redirectUri: string)
    requires CastsHold(authConfig)
    ensures var p := AuthResponsePayload(authConfig, authResponseUrl, redirectUri);
      forall k :: k in authConfig && k != "exchangedAuthCredential" && !authConfig[k].Undefined? ==>
        k in p && p[k] == JsonClone(authConfig[k])
    ensures var p := AuthResponsePayload(authConfig, authResponseUrl, redirectUri);
      var ex := Get(Obj(authConfig), "exchangedAuthCredential");
      ex.Obj? ==> forall k :: k in ex.fields && k != "oauth2" && !ex.fields[k].Undefined? ==>
        p["exchangedAuthCredential"].fields[k] == JsonClone(ex.fields[k])
    ensures var p := AuthResponsePayload(authConfig, authResponseUrl, redirectUri);
      var o := Get(Get(Obj(authConfig), "exchangedAuthCredential"), "oauth2");
      o.Obj? ==> forall k :: k in o.fields && k != "authResponseUri" && k != "redirectUri" && !o.fields[k].Undefined? ==>
        Get(Get(p["exchangedAuthCredential"], "oauth2"), k) == JsonClone(o.fields[k])
  {
    PayloadKeepsConfigMembers(authConfig, authResponseUrl, redirectUri);
    var ex := Get(Obj(authConfig), "exchangedAuthCredential");
    if ex.Obj? {
      PayloadKeepsCredentialMembers(authConfig, authResponseUrl, redirectUri);
      if Get(ex, "oauth2").Obj? {
        PayloadKeepsOAuth2Members(authConfig, authResponseUrl, redirectUri);
      }
    }
  }

  lemma PayloadKeepsConfigMembers(authConfig: map<string, Value>, authResponseUrl: string, redirectUri: string)
    ensures var p := AuthResponsePayload(authConfig, authResponseUrl, redirectUri);
      forall k :: k in authConfig && k != "exchangedAuthCredential" && !authConfig[k].Undefined? ==>
        k in p && p[k] == JsonClone(authConfig[k])
  {
    assert JsonClone(Obj(authConfig)) == Obj(JsonClone(Obj(authConfig)).fields);
  }

  /** The credential's copy holds a copy of each of its defined members. */
  lemma CredentialCopy(authConfig: map<string, Value>)
    requires CastsHold(authConfig)
    requires Get(Obj(authConfig), "exchangedAuthCredential").Obj?
    ensures var ex := Get(Obj(authConfig), "exchangedAuthCredential");
      var cex := Get(JsonClone(Obj(authConfig)), "exchangedAuthCredential");
      cex == JsonClone(ex) && cex.Obj?
      && forall k :: k in ex.fields && !ex.fields[k].Undefined? ==> Get(cex, k) == JsonClone(ex.fields[k])
  {
    var ex := Get(Obj(authConfig), "exchangedAuthCredential");
    JsonCloneGet(Obj(authConfig), "exchangedAuthCredential");
    forall k | k in ex.fields && !ex.fields[k].Undefined? ensures Get(JsonClone(ex), k) == JsonClone(ex.fields[k]) {
      JsonCloneGet(ex, k);
    }
  }

  lemma PayloadKeepsCredentialMembers(authConfig: map<string, Value>, authResponseUrl: string, redirectUri: string)
    requires CastsHold(authConfig)
    requires Get(Obj(authConfig), "exchangedAuthCredential").Obj?
    ensures var p := AuthResponsePayload(authConfig, authResponseUrl, redirectUri);
      var ex := Get(Obj(authConfig), "exchangedAuthCredential");
      forall k :: k in ex.fields && k != "oauth2" && !ex.fields[k].Undefined? ==>
        p["exchangedAuthCredential"].fields[k] == JsonClone(ex.fields[k])
  {
    CredentialCopy(authConfig);
    assert JsonClone(Obj(authConfig)) == Obj(JsonClone(Obj(authConfig)).fields);
  }

  lemma PayloadKeepsOAuth2Members(authConfig: map<string, Value>, authResponseUrl: string, redirectUri: string)
    requires CastsHold(authConfig)
    requires Get(Obj(authConfig), "exchangedAuthCredential").Obj?
    requires Get(Get(Obj(authConfig), "exchangedAuthCredential"), "oauth2").Obj?
    ensures var p := AuthResponsePayload(authConfig, authResponseUrl, redirectUri);
      var o := Get(Get(Obj(authConfig), "exchangedAuthCredential"), "oauth2");
      forall k :: k in o.fields && k != "authResponseUri" && k != "redirectUri" && !o.fields[k].Undefined? ==>
        Get(Get(p["exchangedAuthCredential"], "oauth2"), k) == JsonClone(o.fields[k])
  {
    var ex := Get(Obj(authConfig), "exchangedAuthCredential");
    CredentialCopy(authConfig);
    assert JsonClone(Obj(authConfig)) == Obj(JsonClone(Obj(authConfig)).fields);
    var o := Get(ex, "oauth2");
    JsonCloneGet(ex, "oauth2");
    forall k | k in o.fields && !o.fields[k].Undefined? ensures Get(JsonClone(o), k) == JsonClone(o.fields[k]) {
      JsonCloneGet(o, k);
    }
  }

  /** In particular the authorisation URI the request carried is still there. */
  lemma PayloadKeepsAuthUri(authConfig: map<string, Value>, authResponseUrl: string, redirectUri: string)
    requires CastsHold(authConfig)
    requires var o := Get(Get(Obj(authConfig), "exchangedAuthCredential"), "oauth2");
      Get(o, "authUri").Str?
    ensures var p := AuthResponsePayload(authConfig, authResponseUrl, redirectUri);
      Get(Get(p["exchangedAuthCredential"], "oauth2"), "authUri")
        == Get(Get(Get(Obj(authConfig), "exchangedAuthCredential"), "oauth2"), "authUri")
  {
    PayloadPreservesOthers(authConfig, authResponseUrl, redirectUri);
  }

  /** The payload is plain JSON, so copying it again changes nothing. */
  lemma PayloadIsJson(authConfig: map<string, Value>, authResponseUrl: string, redirectUri: string)
    ensures IsJson(Obj(AuthResponsePayload(authConfig, authResponseUrl, redirectUri)))
  {
    var cfg := JsonClone(Obj(authConfig)).fields;
    JsonCloneIsJson(Obj(authConfig));
    assert IsJson(Obj(cfg));
    var exchanged := MembersOrEmpty(Get(Obj(cfg), "exchangedAuthCredential"));
    assert IsJson(Obj(exchanged));
    var oauth2 := MembersOrEmpty(Get(Obj(exchanged), "oauth2"));
    assert IsJson(Obj(oauth2));
    var oauth2' := oauth2["authResponseUri" := Str(authResponseUrl)]["redirectUri" := Str(redirectUri)];
    assert IsJson(Obj(oauth2'));
    var exchanged' := exchanged["oauth2" := Obj(oauth2')];
    assert IsJson(Obj(exchanged'));
    assert IsJson(Obj(cfg["exchangedAuthCredential" := Obj(exchanged')]));
  }

  /** Building the payload again from the payload, with the same URLs, gives the same payload. */
  lemma PayloadIdempotent(authConfig: map<string, Value>, authResponseUrl: string, redirectUri: string)
    ensures var p := AuthResponsePayload(authConfig, authResponseUrl, redirectUri);
      CastsHold(p) && AuthResponsePayload(p, authResponseUrl, redirectUri) == p
  {
    var p := AuthResponsePayload(authConfig, authResponseUrl, redirectUri);
    PayloadIsJson(authConfig, authResponseUrl, redirectUri);
    JsonCloneOfJson(Obj(p));
    var ex := p["exchangedAuthCredential"];
    var o := ex.fields["oauth2"];
    assert o.fields["authResponseUri" := Str(authResponseUrl)]["redirectUri" := Str(redirectUri)] == o.fields;
    assert ex.fields["oauth2" := o] == ex.fields;
    assert p["exchangedAuthCredential" := ex] == p;
  }
}
