/** Set-up of the interception layer in a Lambda runtime (src/veneer.ts).

    At load time it reads the function name and the handler descriptor from
    the environment, hooks the global HTTP and HTTPS agents, replaces the
    handler exported by the handler module with one that waits for the
    function's injected latency before calling it, and replaces `request`
    and `get` of the `http` and `https` modules with wrappers that hook the
    agent passed in the request options before forwarding the call.

    JavaScript values are modelled by `JsValue`; a function value is either
    one the model does not look into (`Native`) or one of the two wrappers
    this module installs. */
module Veneer {
  import opened Wrappers
  import opened Text
  import AgentHook

  // ---------------------------------------------------------------------
  // JavaScript values

  datatype JsValue =
    | Undefined
    | Null
    | Num(n: int)
    | Str(s: string)
    | Obj(props: map<string, JsValue>)
    | AgentRef(agent: AgentHook.Agent)
    | Fn(f: Callable)

  datatype Callable =
    | Native(name: string)
    /** `(...args) => { ...; return method(...args) }` around the original
        `method`; calling it does what `CallRequestWrapper` states. */
    | RequestWrapper(original: JsValue)
    /** `async (event, context, callback) => { ...; return handlerFunction(...) }`;
        calling it does what `RunWrappedHandler` states. */
    | HandlerWrapper(handler: JsValue, lambdaName: string)

  /** JavaScript's `typeof`. */
  function TypeOf(v: JsValue): (t: string)
    ensures t in {"undefined", "object", "number", "string", "function"}
    ensures t == "object" <==> v.Null? || v.Obj? || v.AgentRef?
    ensures t == "string" <==> v.Str?
  {
    match v
    case Undefined => "undefined"
    case Null => "object"
    case Num(_) => "number"
    case Str(_) => "string"
    case Obj(_) => "object"
    case AgentRef(_) => "object"
    case Fn(_) => "function"
  }

  /** Whether `v` counts as true in a condition or on the left of `||`. */
  predicate Truthy(v: JsValue) {
    match v
    case Undefined => false
    case Null => false
    case Num(n) => n != 0
    case Str(s) => s != ""
    case _ => true
  }

  /** `args[i]`, which is `undefined` past the end. */
  function Arg(args: seq<JsValue>, i: nat): JsValue {
    if i < |args| then args[i] else Undefined
  }

  /** `v?.key`. Only plain objects carry properties in this model. */
  function Property(v: JsValue, key: string): JsValue {
    if v.Obj? && key in v.props then v.props[key] else Undefined
  }

  /** A call handed on to a function the model does not look into. */
  datatype Call = Call(callee: JsValue, args: seq<JsValue>)

  // ---------------------------------------------------------------------
  // Request options

  const NoRequestOptions := "unable to find request options"

  /** `getRequestOptions(args)`: with a URL string first, the options are
      the second argument; with an object (or null) first, they are that
      object; anything else throws. */
  function GetRequestOptions(args: seq<JsValue>): (r: Result<JsValue, string>)
    ensures r.Failure? <==> |args| == 0 || args[0].Undefined? || args[0].Num? || args[0].Fn?
    ensures r.Failure? ==> r.error == NoRequestOptions
    ensures |args| >= 1 && args[0].Str? ==> r == Success(Arg(args, 1))
    ensures |args| >= 1 && (args[0].Null? || args[0].Obj? || args[0].AgentRef?) ==> r == Success(args[0])
  {
    if TypeOf(Arg(args, 0)) == "string" then Success(Arg(args, 1))
    else if TypeOf(Arg(args, 0)) == "object" then Success(Arg(args, 0))
    else Failure(NoRequestOptions)
  }

  /** The agent that a call of a patched `request` or `get` hooks, if any. */
  function HookTarget(args: seq<JsValue>): (a: Option<AgentHook.Agent>)
    ensures GetRequestOptions(args).Failure? ==> a.None?
    ensures a.Some? <==> GetRequestOptions(args).Success? && Property(GetRequestOptions(args).value, "agent").AgentRef?
    ensures a.Some? ==> Property(GetRequestOptions(args).value, "agent") == AgentRef(a.value)
  {
    match GetRequestOptions(args)
    case Failure(_) => None
    case Success(options) =>
      var agent := Property(options, "agent");
      if Truthy(agent) && agent.AgentRef? then Some(agent.agent) else None
  }

  function HookedBy(args: seq<JsValue>): set<object> {
    if HookTarget(args).Some? then {HookTarget(args).value} else {}
  }

  /** `http.get(url, { agent }, callback)` hooks `agent`. */
  lemma UrlThenOptionsHooksAgent(url: string, props: map<string, JsValue>, callback: JsValue, agent: AgentHook.Agent)
    requires "agent" in props && props["agent"] == AgentRef(agent)
    ensures HookTarget([Str(url), Obj(props), callback]) == Some(agent)
  {
  }

  /** `https.request(url, callback)` hooks nothing: the options taken are the
      callback, which has no `agent`. */
  lemma UrlThenCallbackHooksNothing(url: string, callback: Callable)
    ensures HookTarget([Str(url), Fn(callback)]) == None
    ensures GetRequestOptions([Str(url), Fn(callback)]) == Success(Fn(callback))
  {
  }

  /** An object first argument, such as a URL object, is taken as the
      options even when an options object with an agent follows it, so that
      agent is not hooked. */
  lemma ObjectFirstShadowsOptions(first: map<string, JsValue>, props: map<string, JsValue>, callback: JsValue)
    requires "agent" !in first
    ensures GetRequestOptions([Obj(first), Obj(props), callback]) == Success(Obj(first))
    ensures HookTarget([Obj(first), Obj(props), callback]) == None
  {
  }

  /** A call of the patched method: the options are taken from `args` (the
      call throws when there are none), the agent in them is hooked when
      present, and the original method is called with `args` unchanged. */
  method CallRequestWrapper(original: JsValue, args: seq<JsValue>) returns (r: Result<Call, string>)
    modifies HookedBy(args)
    ensures GetRequestOptions(args).Failure? ==> r == Failure(NoRequestOptions)
    ensures GetRequestOptions(args).Success? ==> r == Success(Call(original, args))
    ensures HookTarget(args).Some? ==>
              var a := HookTarget(args).value;
              (a.createConnection, a.veneer) == AgentHook.Hook(old(a.createConnection), old(a.veneer))
  {
    var options := GetRequestOptions(args);
    if options.Failure? {
      return Failure(options.error);
    }
    var agent := Property(options.value, "agent");
    if Truthy(agent) && agent.AgentRef? {
      AgentHook.HookAgent(agent.agent);
    }
    r := Success(Call(original, args));
  }

  // ---------------------------------------------------------------------
  // Environment and handler descriptor

  /** `AWS_LAMBDA_FUNCTION_NAME` and `_HANDLER`. */
  datatype Env = Env(functionName: Option<string>, handler: Option<string>)

  const DefaultLambdaName := "unknown-lambda"
  const DefaultHandler := "unknown.handler"

  /** `value || default` for a string that may be unset: an unset or empty
      value gives the default. */
  function OrDefault(value: Option<string>, default: string): (r: string)
    ensures value.Some? && value.value != "" ==> r == value.value
    ensures value == None || value == Some("") ==> r == default
    ensures default != "" ==> r != ""
  {
    if value.Some? && value.value != "" then value.value else default
  }

  /** `AWS_LAMBDA_FUNCTION_NAME || 'unknown-lambda'`. */
  function LambdaName(env: Env): (name: string)
    ensures name != ""
    ensures env.functionName.Some? && env.functionName.value != "" ==> name == env.functionName.value
  {
    OrDefault(env.functionName, DefaultLambdaName)
  }

  /** `_HANDLER || 'unknown.handler'`. */
  function HandlerDescriptor(env: Env): (descriptor: string)
    ensures descriptor != ""
    ensures env.handler.Some? && env.handler.value != "" ==> descriptor == env.handler.value
  {
    OrDefault(env.handler, DefaultHandler)
  }

  /** `const [moduleName, handlerName] = handler.split('.')`. */
  datatype HandlerRef = HandlerRef(moduleName: string, handlerName: Option<string>)

  function ParseHandler(handler: string): (h: HandlerRef)
    ensures '.' !in h.moduleName
    ensures h.handlerName.Some? ==> '.' !in h.handlerName.value
    ensures h.handlerName.None? <==> '.' !in handler
  {
    var parts := Split(handler, '.');
    HandlerRef(parts[0], if |parts| >= 2 then Some(parts[1]) else None)
  }

  /** The module name and the handler name are the two segments of a
      descriptor with one dot. */
  lemma ParseHandlerTwoSegments(moduleName: string, handlerName: string)
    requires '.' !in moduleName && '.' !in handlerName
    ensures ParseHandler(moduleName + "." + handlerName) == HandlerRef(moduleName, Some(handlerName))
  {
    SplitAfterFirst(moduleName, '.', handlerName);
    assert Split(handlerName, '.') == [handlerName];
  }

  /** Segments after the second are ignored. */
  lemma ParseHandlerIgnoresRest(moduleName: string, handlerName: string, rest: string)
    requires '.' !in moduleName && '.' !in handlerName
    ensures ParseHandler(moduleName + "." + handlerName + "." + rest) == HandlerRef(moduleName, Some(handlerName))
  {
    var tail := handlerName + ['.'] + rest;
    assert moduleName + "." + handlerName + "." + rest == moduleName + ['.'] + tail;
    SplitAfterFirst(moduleName, '.', tail);
    SplitAfterFirst(handlerName, '.', rest);
  }

  /** A descriptor without a dot names only the module; the handler name is
      then `undefined`. */
  lemma ParseHandlerWithoutDot(handler: string)
    requires '.' !in handler
    ensures ParseHandler(handler) == HandlerRef(handler, None)
  {
  }

  /** The parsed names are read off the front of the descriptor. */
  lemma {:induction false} ParseHandlerPrefix(handler: string)
    ensures var h := ParseHandler(handler);
            h.handlerName.None? ==> h.moduleName == handler
    ensures var h := ParseHandler(handler);
            h.handlerName.Some? ==> h.moduleName + "." + h.handlerName.value <= handler
  {
    var parts := Split(handler, '.');
    JoinSplit(handler, '.');
    if |parts| >= 2 {
      var tail := parts[1..];
      assert Join(parts, '.') == parts[0] + ['.'] + Join(tail, '.');
      if |tail| >= 2 {
        assert Join(tail, '.') == parts[1] + ['.'] + Join(tail[1..], '.');
      }
    }
  }

  /** The defaults: `unknown-lambda`, and the `handler` export of module
      `unknown`, also when `_HANDLER` is set but empty. */
  lemma Defaults(handlerEnv: Option<string>)
    requires handlerEnv == None || handlerEnv == Some("")
    ensures LambdaName(Env(None, handlerEnv)) == "unknown-lambda"
    ensures ParseHandler(HandlerDescriptor(Env(None, handlerEnv))) == HandlerRef("unknown", Some("handler"))
  {
    assert HandlerDescriptor(Env(None, handlerEnv)) == "unknown" + "." + "handler";
    ParseHandlerTwoSegments("unknown", "handler");
  }

  /** The property key `module[handlerName]` uses: an `undefined` name
      becomes the key "undefined". */
  function HandlerKey(h: HandlerRef): (key: string)
    ensures h.handlerName.Some? ==> key == h.handlerName.value
    ensures h.handlerName.None? ==> key == "undefined"
  {
    h.handlerName.GetOr("undefined")
  }

  /** The file the handler module is loaded from: the module name, which
      holds no dot, followed by `.js`. */
  function HandlerModulePath(env: Env): (path: string)
    ensures |path| >= 3 && path[|path| - 3..] == ".js"
    ensures '.' !in path[..|path| - 3]
  {
    ParseHandler(HandlerDescriptor(env)).moduleName + ".js"
  }

  // ---------------------------------------------------------------------
  // The wrapped handler

  /** What `behaviour(lambdaName)` gives for the handler: `{ latencyMs }`. */
  datatype HandlerBehaviour = HandlerBehaviour(latencyMs: Option<nat>)

  /** One run of the wrapped handler: the wait before the call, if any, and
      the call of the original handler. */
  datatype HandlerRun = HandlerRun(waitMs: Option<nat>, call: Call)

  /** `latencyMs` defaults to 0; the handler waits only when it is not 0, and
      then calls the original handler with `(event, context, callback)`. */
  function RunWrappedHandler(handler: JsValue, lambdaName: string, behaviour: string -> HandlerBehaviour,
                             event: JsValue, context: JsValue, callback: JsValue): (run: HandlerRun)
    ensures run.call.callee == handler && run.call.args == [event, context, callback]
    ensures run.waitMs.Some? <==> behaviour(lambdaName).latencyMs.Some? && behaviour(lambdaName).latencyMs.value != 0
    ensures run.waitMs.Some? ==> run.waitMs == behaviour(lambdaName).latencyMs
  {
    var latencyMs := behaviour(lambdaName).latencyMs.GetOr(0);
    HandlerRun(if latencyMs != 0 then Some(latencyMs) else None, Call(handler, [event, context, callback]))
  }

  // ---------------------------------------------------------------------
  // Patching modules

  /** The exports of a module, which the set-up overwrites. */
  class JsModule {
    var members: map<string, JsValue>

    constructor (members: map<string, JsValue>)
      ensures this.members == members
    {
      this.members := members;
    }
  }

  /** `module[key]`. */
  function Member(members: map<string, JsValue>, key: string): JsValue {
    if key in members then members[key] else Undefined
  }

  /** `module[handlerName] = async (...) => ...` around the old export. */
  method WrapHandler(m: JsModule, h: HandlerRef, lambdaName: string)
    modifies m
    ensures m.members == old(m.members)[HandlerKey(h) := Fn(HandlerWrapper(Member(old(m.members), HandlerKey(h)), lambdaName))]
  {
    var handlerFunction := Member(m.members, HandlerKey(h));
    m.members := m.members[HandlerKey(h) := Fn(HandlerWrapper(handlerFunction, lambdaName))];
  }

  const RequestMethodNames := ["request", "get"]

  function WrapRequest(members: map<string, JsValue>, name: string): map<string, JsValue> {
    members[name := Fn(RequestWrapper(Member(members, name)))]
  }

  /** The exports after wrapping each of `names` in order. */
  function WrapRequests(members: map<string, JsValue>, names: seq<string>): map<string, JsValue> {
    if names == [] then members
    else WrapRequest(WrapRequests(members, names[..|names| - 1]), names[|names| - 1])
  }

  /** Wrapping distinct names once each: every named export becomes a
      wrapper around its old value, and every other export is kept. */
  lemma {:induction false} WrapRequestsEffect(members: map<string, JsValue>, names: seq<string>)
    requires forall i, j :: 0 <= i < j < |names| ==> names[i] != names[j]
    ensures WrapRequests(members, names).Keys == members.Keys + set n | n in names
    ensures forall n :: n in names ==> WrapRequests(members, names)[n] == Fn(RequestWrapper(Member(members, n)))
    ensures forall k :: k !in names ==> Member(WrapRequests(members, names), k) == Member(members, k)
  {
    if names != [] {
      var init := names[..|names| - 1];
      var last := names[|names| - 1];
      WrapRequestsEffect(members, init);
      assert last !in init;
      assert forall n :: n in names ==> n in init || n == last;
    }
  }

  /** The nested `forEach` over the modules and over `request` and `get`. */
  method WrapRequestMethods(modules: seq<JsModule>)
    requires forall i, j :: 0 <= i < j < |modules| ==> modules[i] != modules[j]
    modifies set m | m in modules
    ensures forall i :: 0 <= i < |modules| ==>
              modules[i].members == WrapRequests(old(modules[i].members), RequestMethodNames)
  {
    for i := 0 to |modules|
      invariant forall j :: 0 <= j < i ==>
                  modules[j].members == WrapRequests(old(modules[j].members), RequestMethodNames)
      invariant forall j :: i <= j < |modules| ==> modules[j].members == old(modules[j].members)
    {
      var m := modules[i];
      for k := 0 to |RequestMethodNames|
        invariant m.members == WrapRequests(old(m.members), RequestMethodNames[..k])
        modifies m
      {
        var name := RequestMethodNames[k];
        var original := Member(m.members, name);
        m.members := m.members[name := Fn(RequestWrapper(original))];
        assert RequestMethodNames[..k + 1][..k] == RequestMethodNames[..k];
      }
      assert RequestMethodNames[..|RequestMethodNames|] == RequestMethodNames;
    }
  }

  // ---------------------------------------------------------------------
  // Set-up

  /** The set-up run at load time. `load` stands for `require`: the handler
      module is what it gives for `HandlerModulePath(env)`, or null when
      loading throws, in which case the handler is left as it is. */
  method Setup(env: Env, httpsAgent: AgentHook.Agent, httpAgent: AgentHook.Agent,
               load: string -> JsModule?, handlerModule: JsModule?, http: JsModule, https: JsModule)
    returns (lambdaName: string, handler: HandlerRef)
    requires httpsAgent != httpAgent && http != https
    requires handlerModule == load(HandlerModulePath(env))
    requires handlerModule != http && handlerModule != https
    modifies httpsAgent, httpAgent, handlerModule, http, https
    ensures lambdaName == LambdaName(env)
    ensures handler == ParseHandler(HandlerDescriptor(env))
    ensures (httpsAgent.createConnection, httpsAgent.veneer)
            == AgentHook.Hook(old(httpsAgent.createConnection), old(httpsAgent.veneer))
    ensures (httpAgent.createConnection, httpAgent.veneer)
            == AgentHook.Hook(old(httpAgent.createConnection), old(httpAgent.veneer))
    ensures handlerModule != null ==>
              handlerModule.members == old(handlerModule.members)[HandlerKey(handler) :=
                Fn(HandlerWrapper(Member(old(handlerModule.members), HandlerKey(handler)), lambdaName))]
    ensures http.members == WrapRequests(old(http.members), RequestMethodNames)
    ensures https.members == WrapRequests(old(https.members), RequestMethodNames)
  {
    lambdaName := LambdaName(env);
    var descriptor := HandlerDescriptor(env);
    AgentHook.HookAgent(httpsAgent);
    AgentHook.HookAgent(httpAgent);
    handler := ParseHandler(descriptor);
    if handlerModule != null {
      WrapHandler(handlerModule, handler, lambdaName);
    }
    var modules := [http, https];
    WrapRequestMethods(modules);
    assert modules[0] == http && modules[1] == https;
  }
}
