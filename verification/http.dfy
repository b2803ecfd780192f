/** The part of an `httpx` response the modelled code looks at. */
module Http {
  import opened Wrappers
  import opened JsonValue
  import opened Exceptions
  import Text

  /** A response: its status code, the value `resp.json()` returns (`None` when the
      body is not JSON and `resp.json()` raises), and `resp.text`. */
  datatype HttpResponse = HttpResponse(status: int, body: Option<Json>, text: string)

  /** `resp.is_success`: a 2xx status. */
  predicate IsSuccess(status: int) {
    200 <= status < 300
  }

  /** `resp.raise_for_status()`: every status outside 2xx raises `HTTPStatusError`. */
  function RaiseForStatus(resp: HttpResponse): (r: Result<HttpResponse, Exc>)
    ensures r.Ok? <==> IsSuccess(resp.status)
    ensures r.Ok? ==> r.value == resp
    ensures r.Err? ==> r.error.kind == HttpStatusError
  {
    if IsSuccess(resp.status) then Ok(resp)
    else Err(Exc(HttpStatusError, Text.IntToString(resp.status)))
  }
}

/** The generic HTTP tool runner (engine/tools/http_tool.py): it turns a tool's
    `execution_config` into one request, with an optional header copied from the
    secret vault, and returns the decoded response. The network is the parameter
    `send`, which either answers the request or raises. */
module HttpTool {
  import opened Wrappers
  import opened JsonValue
  import opened Exceptions
  import opened Http
  import Text

  /** A `ToolConfig`; `kind` is its `type`, kept as a string since the loader
      branches on it. */
  datatype ToolConfig = ToolConfig(kind: string, name: string, executionConfig: Dict)

  /** The secret vault: secret name to secret value. */
  type Vault = map<string, string>

  /** Where the tool arguments go: the query string or a JSON body. */
  datatype Payload = Query(params: Dict) | Body(json: Dict)

  /** The request the runner sends; header names are whatever `auth_config.target` held. */
  datatype Request = Request(verb: string, url: Json, payload: Payload, headers: map<Json, string>)

  const Supported: set<string> := {"GET", "POST", "PUT", "DELETE"}

  function MissingUrl(name: string): Exc {
    Exc(ValueError, "Tool " + name + " missing 'url' in execution_config")
  }

  function UnsupportedMethod(verb: string): Exc {
    Exc(ValueError, "Unsupported HTTP method: " + verb)
  }

  /** `exec_cfg.get("method", "GET").upper()`; a value without `.upper` raises. */
  function MethodName(exec: Dict): (r: Result<string, Exc>)
    ensures "method" !in exec ==> r == Ok("GET")
    ensures r.Ok? <==> Get(exec, "method", JStr("GET")).JStr?
    ensures r.Err? ==> r.error.kind == AttributeError
    ensures r.Ok? ==> |r.value| == |Get(exec, "method", JStr("GET")).s|
    ensures r.Ok? ==> forall c :: c in r.value ==> !('a' <= c <= 'z')
    ensures r.Ok? ==> r.value == Text.Upper(Get(exec, "method", JStr("GET")).s)
  {
    var m := Get(exec, "method", JStr("GET"));
    if m.JStr? then
      var upper := Text.Upper(m.s);
      assert "method" !in exec ==> upper == "GET";
      Ok(upper)
    else Err(NoAttribute(m, "upper"))
  }

  /** The vault holds a secret under `source`; only a string can be such a key. */
  predicate InVault(source: Json, vault: Vault) {
    source.JStr? && source.s in vault
  }

  /** The configuration asks for an auth header and the header can be built: a
      dictionary `auth_config` whose `source` names a secret in the vault and whose
      `target` is a non-empty, hashable header name. */
  predicate Injects(exec: Dict, vault: Vault) {
    var auth := Lookup(exec, "auth_config");
    auth.JObj? &&
    InVault(Lookup(auth.fields, "source"), vault) && Lookup(auth.fields, "source").s != "" &&
    Truthy(Lookup(auth.fields, "target")) && Hashable(Lookup(auth.fields, "target"))
  }

  /** The headers built at engine/tools/http_tool.py:43-49. */
  function AuthHeaders(exec: Dict, vault: Vault): (r: Result<map<Json, string>, Exc>)
    ensures Injects(exec, vault) ==>
      r == Ok(map[Lookup(Lookup(exec, "auth_config").fields, "target") :=
                  vault[Lookup(Lookup(exec, "auth_config").fields, "source").s]])
    ensures r.Ok? && !Injects(exec, vault) ==> r.value == map[]
    ensures !Truthy(Lookup(exec, "auth_config")) ==> r == Ok(map[])
    ensures r.Err? ==> r.error.kind == AttributeError || r.error.kind == TypeError
  {
    var auth := Lookup(exec, "auth_config");
    if !Truthy(auth) then Ok(map[])
    else if !auth.JObj? then Err(NoGet(auth))
    else
      var source := Lookup(auth.fields, "source");
      var target := Lookup(auth.fields, "target");
      if !(Truthy(source) && Truthy(target)) then Ok(map[])
      else if !Hashable(source) then Err(Unhashable(source))
      else if !InVault(source, vault) then Ok(map[])
      else if !Hashable(target) then Err(Unhashable(target))
      else Ok(map[target := vault[source.s]])
  }

  /** Everything `execute_http_tool` does before it touches the network. */
  function BuildRequest(cfg: ToolConfig, args: Dict, vault: Vault): (r: Result<Request, Exc>)
    ensures !Truthy(Lookup(cfg.executionConfig, "url")) ==> r == Err(MissingUrl(cfg.name))
    ensures r.Ok? <==>
      Truthy(Lookup(cfg.executionConfig, "url")) &&
      MethodName(cfg.executionConfig).Ok? && MethodName(cfg.executionConfig).value in Supported &&
      AuthHeaders(cfg.executionConfig, vault).Ok?
    ensures Truthy(Lookup(cfg.executionConfig, "url")) && AuthHeaders(cfg.executionConfig, vault).Ok? &&
            MethodName(cfg.executionConfig).Ok? && MethodName(cfg.executionConfig).value !in Supported ==>
      r == Err(UnsupportedMethod(MethodName(cfg.executionConfig).value))
    ensures r.Ok? ==> r.value.url == Lookup(cfg.executionConfig, "url")
    ensures r.Ok? ==> Ok(r.value.verb) == MethodName(cfg.executionConfig)
    ensures r.Ok? ==> Ok(r.value.headers) == AuthHeaders(cfg.executionConfig, vault)
    ensures r.Ok? ==> (r.value.payload == Query(args) <==> r.value.verb in {"GET", "DELETE"})
    ensures r.Ok? ==> (r.value.payload == Body(args) <==> r.value.verb in {"POST", "PUT"})
  {
    var exec := cfg.executionConfig;
    var url := Lookup(exec, "url");
    if !Truthy(url) then Err(MissingUrl(cfg.name))
    else
      var verb :- MethodName(exec);
      var headers :- AuthHeaders(exec, vault);
      if verb == "GET" || verb == "DELETE" then Ok(Request(verb, url, Query(args), headers))
      else if verb == "POST" || verb == "PUT" then Ok(Request(verb, url, Body(args), headers))
      else Err(UnsupportedMethod(verb))
  }

  /** The value returned for a successful response: its JSON, or `{"text": body}`. */
  function ResponseValue(resp: HttpResponse): (r: Json)
    ensures resp.body.Some? ==> r == resp.body.value
    ensures resp.body.None? ==> r == JObj(map["text" := JStr(resp.text)])
  {
    match resp.body
    case Some(j) => j
    case None => JObj(map["text" := JStr(resp.text)])
  }

  /** `execute_http_tool`. */
  function ExecuteHttpTool(cfg: ToolConfig, args: Dict, vault: Vault,
                           send: Request -> Result<HttpResponse, Exc>): (r: Result<Json, Exc>)
    ensures BuildRequest(cfg, args, vault).Err? ==> r == Err(BuildRequest(cfg, args, vault).error)
    ensures BuildRequest(cfg, args, vault).Ok? && send(BuildRequest(cfg, args, vault).value).Err? ==>
      r == Err(send(BuildRequest(cfg, args, vault).value).error)
    ensures BuildRequest(cfg, args, vault).Ok? && send(BuildRequest(cfg, args, vault).value).Ok? ==>
      var resp := send(BuildRequest(cfg, args, vault).value).value;
      (IsSuccess(resp.status) ==> r == Ok(ResponseValue(resp))) &&
      (!IsSuccess(resp.status) ==> r.Err? && r.error.kind == HttpStatusError)
  {
    var req :- BuildRequest(cfg, args, vault);
    var resp :- send(req);
    var ok :- RaiseForStatus(resp);
    Ok(ResponseValue(ok))
  }

  /** A configuration error is raised before any request: the outcome is the same
      whatever the network would have answered. */
  lemma NoRequestOnBadConfig(cfg: ToolConfig, args: Dict, vault: Vault,
                             send1: Request -> Result<HttpResponse, Exc>,
                             send2: Request -> Result<HttpResponse, Exc>)
    requires BuildRequest(cfg, args, vault).Err?
    ensures ExecuteHttpTool(cfg, args, vault, send1) == ExecuteHttpTool(cfg, args, vault, send2)
    ensures ExecuteHttpTool(cfg, args, vault, send1).error.kind != HttpStatusError
  {
  }

  function WithMethod(cfg: ToolConfig, verb: string): ToolConfig {
    cfg.(executionConfig := cfg.executionConfig["method" := JStr(verb)])
  }

  lemma UpperOfLower(s: string)
    ensures Text.Upper(Text.Lower(s)) == Text.Upper(s)
  {
  }

  /** The method name is case-insensitive: spelling it in lower case builds the same
      request. */
  lemma MethodCaseInsensitive(cfg: ToolConfig, verb: string, args: Dict, vault: Vault)
    ensures BuildRequest(WithMethod(cfg, Text.Lower(verb)), args, vault) ==
            BuildRequest(WithMethod(cfg, verb), args, vault)
  {
    var lower := WithMethod(cfg, Text.Lower(verb)).executionConfig;
    var given := WithMethod(cfg, verb).executionConfig;
    UpperOfLower(verb);
    assert MethodName(lower) == MethodName(given);
    assert Lookup(lower, "url") == Lookup(given, "url");
    assert Lookup(lower, "auth_config") == Lookup(given, "auth_config");
    assert AuthHeaders(lower, vault) == AuthHeaders(given, vault);
  }
}

/** `build_tools_from_runtime` (engine/tools/loader.py): the runtime tool map. */
module ToolLoader {
  import opened Wrappers
  import opened JsonValue
  import opened Exceptions
  import opened Http
  import opened HttpTool

  /** What a tool name is bound to: the HTTP runner of a configuration, or the
      placeholder for a NATIVE tool, which always raises. */
  datatype Runner = HttpRunner(cfg: ToolConfig) | NativeStub(name: string)

  /** The configuration types the loader registers; any other type is skipped. */
  predicate Loadable(cfg: ToolConfig) {
    cfg.kind == "HTTP" || cfg.kind == "NATIVE"
  }

  function RunnerFor(cfg: ToolConfig): Runner
    requires Loadable(cfg)
  {
    if cfg.kind == "HTTP" then HttpRunner(cfg) else NativeStub(cfg.name)
  }

  function NotImplemented(name: string): Exc {
    Exc(NotImplementedError, "NATIVE tool " + name + " not implemented yet")
  }

  /** Calling a registered tool with its argument dictionary. */
  function Run(runner: Runner, args: Dict, vault: Vault,
               send: Request -> Result<HttpResponse, Exc>): (r: Result<Json, Exc>)
    ensures runner.NativeStub? ==> r == Err(NotImplemented(runner.name))
    ensures runner.HttpRunner? ==> r == ExecuteHttpTool(runner.cfg, args, vault, send)
  {
    match runner
    case NativeStub(name) => Err(NotImplemented(name))
    case HttpRunner(cfg) => ExecuteHttpTool(cfg, args, vault, send)
  }

  /** The names the loader registers. */
  ghost function LoadedNames(cfgs: seq<ToolConfig>): set<string> {
    set i | 0 <= i < |cfgs| && Loadable(cfgs[i]) :: cfgs[i].name
  }

  /** `cfgs[i]` is registered and no later registered configuration reuses its name. */
  ghost predicate LastLoadable(cfgs: seq<ToolConfig>, i: int)
    requires 0 <= i < |cfgs|
  {
    Loadable(cfgs[i]) &&
    forall j :: i < j < |cfgs| && Loadable(cfgs[j]) ==> cfgs[j].name != cfgs[i].name
  }

  lemma LastLoadableStep(cfgs: seq<ToolConfig>, i: int, j: int)
    requires 0 <= j < i < |cfgs|
    requires LastLoadable(cfgs[..i + 1], j)
    ensures LastLoadable(cfgs[..i], j)
    ensures !(Loadable(cfgs[i]) && cfgs[i].name == cfgs[j].name)
  {
    assert cfgs[..i + 1][i] == cfgs[i];
  }

  lemma LoadedNamesStep(cfgs: seq<ToolConfig>, i: int)
    requires 0 <= i < |cfgs|
    ensures LoadedNames(cfgs[..i + 1]) ==
            LoadedNames(cfgs[..i]) + (if Loadable(cfgs[i]) then {cfgs[i].name} else {})
  {
    var p := cfgs[..i + 1];
    forall n | n in LoadedNames(p)
      ensures n in LoadedNames(cfgs[..i]) + (if Loadable(cfgs[i]) then {cfgs[i].name} else {})
    {
      var k :| 0 <= k < |p| && Loadable(p[k]) && p[k].name == n;
      if k < i {
        assert cfgs[..i][k] == p[k];
      }
    }
    forall n | n in LoadedNames(cfgs[..i])
      ensures n in LoadedNames(p)
    {
      var k :| 0 <= k < i && Loadable(cfgs[..i][k]) && cfgs[..i][k].name == n;
      assert p[k] == cfgs[..i][k];
    }
    if Loadable(cfgs[i]) {
      assert p[i] == cfgs[i];
    }
  }

  /** `tools` is what the loader holds after reading `cfgs`: exactly their
      registered names, each bound by the last registered configuration of that name. */
  ghost predicate Registered(cfgs: seq<ToolConfig>, tools: map<string, Runner>) {
    tools.Keys == LoadedNames(cfgs) &&
    forall j :: 0 <= j < |cfgs| && LastLoadable(cfgs, j) ==>
      cfgs[j].name in tools && tools[cfgs[j].name] == RunnerFor(cfgs[j])
  }

  /** One iteration of the loader's loop (engine/tools/loader.py:27-44). */
  function Register(tools: map<string, Runner>, cfg: ToolConfig): map<string, Runner> {
    if cfg.kind == "HTTP" then tools[cfg.name := HttpRunner(cfg)]
    else if cfg.kind == "NATIVE" then tools[cfg.name := NativeStub(cfg.name)]
    else tools
  }

  lemma RegisterStep(cfgs: seq<ToolConfig>, i: int, tools: map<string, Runner>)
    requires 0 <= i < |cfgs|
    requires Registered(cfgs[..i], tools)
    ensures Registered(cfgs[..i + 1], Register(tools, cfgs[i]))
  {
    var after := Register(tools, cfgs[i]);
    LoadedNamesStep(cfgs, i);
    var p := cfgs[..i + 1];
    forall j | 0 <= j < |p| && LastLoadable(p, j)
      ensures p[j].name in after && after[p[j].name] == RunnerFor(p[j])
    {
      if j < i {
        LastLoadableStep(cfgs, i, j);
        assert cfgs[..i][j] == p[j];
      } else {
        assert p[j] == cfgs[i];
      }
    }
  }

  /** `build_tools_from_runtime`: each HTTP or NATIVE configuration binds its name,
      a later one replacing an earlier one of the same name; other types add nothing. */
  method BuildToolsFromRuntime(cfgs: seq<ToolConfig>) returns (tools: map<string, Runner>)
    ensures tools.Keys == LoadedNames(cfgs)
    ensures forall i :: 0 <= i < |cfgs| && LastLoadable(cfgs, i) ==>
      cfgs[i].name in tools && tools[cfgs[i].name] == RunnerFor(cfgs[i])
  {
    tools := map[];
    var i := 0;
    assert cfgs[..0] == [];
    while i < |cfgs|
      invariant 0 <= i <= |cfgs|
      invariant Registered(cfgs[..i], tools)
    {
      RegisterStep(cfgs, i, tools);
      tools := Register(tools, cfgs[i]);
      i := i + 1;
    }
    assert cfgs[..i] == cfgs;
  }
}
