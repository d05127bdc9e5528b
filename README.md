# Veneer interception core, modelled in Dafny

Veneer injects faults into a Node.js Lambda function. It hooks the HTTP
agents so that each outgoing connection either gets a fabricated HTTP
response or passes through to the real connection with extra latency. It
also wraps the function's handler so that each invocation can be delayed.

This project models two source files:

- `agent.dfy`, module `AgentHook` (src/agent.ts). An agent is a class
  `Agent` whose fields are `createConnection` and the `__veneer__` flag, and
  `hookAgent` is the method `HookAgent`, which takes a possibly null agent. The replacement `createConnection` is a method, `Connect`, proved
  against a specification function, `Outcome`. That function gives either a
  fabricated connection (the delay and the chunks written to the server end
  of the fake socket pair) or the real socket, with the options it was
  opened with and its resume timers. The socket's `pause`/`resume` flag
  lives in a class `Socket`. The status line and header serialiser comes
  with a reader for one response of that form. It takes the status-code
  rule of section 4 of RFC 9112 (exactly three digits) and the part of
  section 6.3 that depends on the status code alone: no body after 1xx, 204
  or 304, otherwise the body runs to the end of the stream. It does not
  know the request method, and it keeps the Content-Type value exactly as
  written. Lemmas show that this reader accepts the fabricated response
  exactly when the code is from 100 to 999. For a reason and content type
  without CR it then gets back the status code, reason phrase and content
  type, and the body too, except after 1xx, 204 or 304.
- `veneer.dfy`, module `Veneer` (src/veneer.ts). JavaScript values are a
  datatype. The model covers `getRequestOptions` with its throw, the
  environment defaults, the `handler.split('.')` destructuring, the wrapped
  handler's latency rule and the wrapped `request`/`get`. The set-up code is
  imperative: its nested `forEach` loops overwrite module exports, modelled
  as a class `JsModule` with a `members` map.
- `text.dfy`, module `Text`: the two JavaScript string built-ins the code
  relies on. These are integer interpolation `${n}` and `split` on one
  character. Each comes with its inverse and round-trip lemmas.
- `wrappers.dfy`, module `Wrappers`: `Option` and `Result`.

External pieces become parameters:

- The behaviour lookup `behaviour(host)` is a function
  `string -> Behaviour`.
- Node's `http.STATUS_CODES` is a `map<int, string>`.
- The socket that the agent's own `createConnection` opens is a `Socket`
  argument.
- `require` is a function `string -> JsModule?`, null when loading throws.
  `Setup` receives the module it gives for `HandlerModulePath(env)`.
- `process.env` is an `Env` value.

Timers are recorded as the milliseconds they wait.

Facts about the code that shape the model:

- The tests set an `intercept` field on each response
  (src/__test__/intercept.test.ts:82,98), but the code never reads it: a
  response is fabricated whenever the looked-up behaviour has a `response`
  (src/agent.ts:24). `Response` therefore has no such field.
- Latency is `latency.ms` (or `latencyMs` for the handler) as the lookup
  returns it, applied when it is non-zero.
- The status code and the body are written unchecked (src/agent.ts:25,30,33).
  A code outside 100 to 999 (for example 1000 or -1) gives a status line no
  HTTP/1.1 client accepts, and a body sent after a 1xx, 204 or 304 head is
  not part of that response. `HeadUnreadable` and the bodyless case of
  `HeadRoundTrip` state this. Veneer injects faults, so such responses may
  be intended, and the model keeps the code's behaviour.

## Model

| member | source | states |
|---|---|---|
| `AgentHook.DelayMs` | src/agent.ts:22 | A missing `latency` gives a delay of 0; otherwise the delay is `latency.ms` |
| `AgentHook.StatusCode` | src/agent.ts:25 | The code is never 0. It is 200 exactly when the given code is absent, 0 or 200; any other result is the given code |
| `AgentHook.ReasonPhrase` | src/agent.ts:30 | The phrase is never empty. It is "ERROR" exactly when the table has no entry for the code or an empty one (or "ERROR" itself); otherwise it is the table's entry |
| `AgentHook.ContentType` | src/agent.ts:31 | Never empty. A given non-empty content type is kept; an absent or empty one gives "text/plain" |
| `AgentHook.Head` | src/agent.ts:29-31 | The head starts with `HTTP/1.1 `; `HeadRoundTrip` and `HeadUnreadable` state what a peer reads from it for every code |
| `AgentHook.ResponseHead` | src/agent.ts:25-31 | The head for a response: its defaulted code, the table's reason or "ERROR", and its defaulted content type; `PeerReadsFabricatedResponse` states what the peer reads from it |
| `AgentHook.ServerWrites` | src/agent.ts:32-33 | The server end gets the head first, then the body as a second chunk only when a body is given |
| `AgentHook.HeadRoundTrip` | src/agent.ts:29-31 | For a code from 100 to 999, the reader parses the head followed by any body back into the same status code, reason and content type, when the reason and content type hold no CR. The body reads back too, except after 1xx, 204 or 304, where the message ends with the head |
| `AgentHook.HeadUnreadable` | src/agent.ts:29-30 | For any other code (negative, below 100, 1000 or more) the head is rejected whatever follows it |
| `AgentHook.PeerReadsFabricatedResponse` | src/agent.ts:25-33 | The peer of the server end reads exactly head ++ body (empty when absent). It can parse that iff the defaulted status code is from 100 to 999, and then reads that code, the table's reason or "ERROR", the defaulted content type, and the body (dropped after 1xx, 204 or 304) |
| `Text.NatDecimalRoundTrip` | src/agent.ts:30 | Reading the decimal digits written for a natural number gives that number |
| `Text.IntDecimalRoundTrip` | src/agent.ts:30 | Reading back `${statusCode}` gives the status code, for every integer; the model's integers are unbounded |
| `Text.ThreeDigitCodes` | src/agent.ts:30 | An integer is written as exactly three digits, the status-code form of section 4 of RFC 9112, iff it is from 100 to 999 |
| `Text.IntToDecimal` | src/agent.ts:30 | `${statusCode}` for an integer: never empty, and holds no space or CR, so it ends at the space that follows it in the status line |
| `Text.NatToDecimal` | src/agent.ts:30 | The decimal text is non-empty, all digits, has no leading zero, and is one digit exactly for numbers below 10 |
| `AgentHook.Hook` | src/agent.ts:14-19 | Afterwards the flag is set. One more intercepting layer is added exactly when the flag was not already set |
| `AgentHook.HookIdempotent` | src/agent.ts:14-16 | Hooking a second time changes nothing |
| `AgentHook.HookAgent` | src/agent.ts:12-53 | A null agent is untouched, and so is a flagged agent. Otherwise `createConnection` is wrapped once and the flag set. The one-layer-iff-flagged invariant is kept |
| `AgentHook.Agent.constructor` | src/__test__/intercept.test.ts:17 | A new agent is unhooked: its own `createConnection`, no flag |
| `AgentHook.Agent.CreateConnection` | src/agent.ts:19-50 | On an agent with one closure iff flagged: the result is the specified outcome. An unhooked agent returns the real socket with no timer. A hooked one fabricates iff a response is given, after `latency.ms`; otherwise it returns the real socket with one resume timer iff `latency.ms` is non-zero. The fabricate path leaves the socket untouched; on pass-through the socket is paused exactly when a timer was scheduled (or it already was paused) |
| `AgentHook.Outcome` | src/agent.ts:19-50 | The specified result: fabricated iff the connector intercepts and a response is given; otherwise the socket opened for the same options, with at most one timer per closure |
| `AgentHook.ResumeDelays` | src/agent.ts:40-47 | The resume timers of the stacked closures: at most one per closure, none when `latency.ms` is 0 |
| `AgentHook.FireResumeTimers` | src/agent.ts:43-46 | When the timers fire, each calls `socket.resume()`: the socket flows again if any timer was scheduled and is untouched otherwise |
| `AgentHook.Connect` | src/agent.ts:19-50 | The same, for any stack of closures: each closure fabricates when a response is given, and otherwise calls the function it wraps and pauses when the delay is non-zero |
| `AgentHook.Socket.Pause` | src/agent.ts:42 | The socket is paused |
| `AgentHook.Socket.Resume` | src/agent.ts:45 | The socket is no longer paused |
| `AgentHook.ResumeDelaysCount` | src/agent.ts:40-47 | Each stacked closure schedules its own resume of `latency.ms`. So a non-zero latency gives one timer per layer, which is why the agent is hooked only once |
| `AgentHook.UnhookedPassesThrough` | src/agent.ts:38 | An agent that was never hooked hands back the real socket with the same options and no timers |
| `AgentHook.HookedDecision` | src/agent.ts:22-48 | On a hooked agent the fabricate path is taken iff a response is given, after exactly `latency.ms` (0 when absent). Otherwise the same socket comes back with the same options and one resume timer iff `latency.ms` is non-zero |
| `AgentHook.LatencyOnlyAfterDoubleHook` | src/__test__/intercept.test.ts:69-77 | A fresh agent with only a latency configured returns the real socket under a single resume timer of that latency, also when it is hooked a second time (as a patched `request` does, src/veneer.ts:58-59) |
| `AgentHook.NotFoundAfterLatency` | src/__test__/intercept.test.ts:95-110 | A 404 with body "Not Found" and 200 ms latency writes exactly `HTTP/1.1 404 Not Found\r\nContent-Type: text/plain\r\n\r\n`, then `Not Found`, after 200 ms |
| `Veneer.TypeOf` | src/veneer.ts:8-10 | `typeof` gives one of five names; "object" exactly for null, objects and agents, "string" exactly for strings |
| `Veneer.Truthy` | src/veneer.ts:58 | Undefined, null, 0 and the empty string are falsy; every other value is truthy |
| `Veneer.HookTarget` | src/veneer.ts:57-59 | The agent hooked by a patched call: none when the options cannot be found; otherwise some exactly when `options.agent` is an agent, and then that agent |
| `Veneer.Arg` | src/veneer.ts:8-11 | `args[i]`, which is undefined past the end of the arguments; no contract of its own |
| `Veneer.Property` | src/veneer.ts:58 | `requestOptions?.agent`: the property of a plain object, else undefined; no contract of its own |
| `Veneer.GetRequestOptions` | src/veneer.ts:7-14 | A string first argument yields the second argument (undefined if absent). An object or null first yields that argument. No arguments, a number, a function or undefined first throws "unable to find request options" |
| `Veneer.UrlThenOptionsHooksAgent` | src/__test__/intercept.test.ts:22 | `http.get(url, { agent }, callback)` hooks that agent |
| `Veneer.UrlThenCallbackHooksNothing` | src/__test__/intercept.js:5 | `https.request(url, callback)` takes the callback as options and hooks nothing |
| `Veneer.ObjectFirstShadowsOptions` | src/veneer.ts:10-11 | An object first argument is taken as the options even when an options object with an agent follows it |
| `Veneer.CallRequestWrapper` | src/veneer.ts:56-62 | When no options are found the call throws and nothing else happens. Otherwise the agent in the options, if present, is hooked, and the original method is called with the arguments unchanged |
| `Veneer.OrDefault` | src/veneer.ts:17-18 | An unset or empty environment value gives the default; any other value is kept |
| `Veneer.LambdaName` | src/veneer.ts:17 | Never empty; a set, non-empty `AWS_LAMBDA_FUNCTION_NAME` is used as is |
| `Veneer.HandlerDescriptor` | src/veneer.ts:18 | Never empty; a set, non-empty `_HANDLER` is used as is |
| `Veneer.Defaults` | src/veneer.ts:17-18 | With nothing set, the name is "unknown-lambda" and the handler is `handler` in module `unknown`; an empty `_HANDLER` gives the same |
| `Text.Split` | src/veneer.ts:27 | `split` yields at least one piece, and no piece holds the separator |
| `Text.JoinSplit` | src/veneer.ts:27 | Joining the pieces of a split with the separator gives back the descriptor |
| `Text.SplitJoin` | src/veneer.ts:27 | Splitting the join of separator-free pieces gives back those pieces |
| `Veneer.ParseHandler` | src/veneer.ts:27 | Neither name holds a dot. The handler name is undefined exactly when the descriptor has no dot |
| `Veneer.ParseHandlerTwoSegments` | src/veneer.ts:27 | `"m.h"` gives module `m` and handler `h` |
| `Veneer.ParseHandlerIgnoresRest` | src/veneer.ts:27 | `"m.h.rest"` gives module `m` and handler `h`: later segments are ignored |
| `Veneer.ParseHandlerWithoutDot` | src/veneer.ts:27 | A descriptor with no dot names only the module; the handler name is undefined |
| `Veneer.ParseHandlerPrefix` | src/veneer.ts:27 | The module name, then a dot and the handler name when there is one, is a prefix of the descriptor |
| `Veneer.RunWrappedHandler` | src/veneer.ts:31-43 | A missing `latencyMs` counts as 0. The handler waits exactly when `latencyMs` is non-zero, for that long, then calls the original handler with `(event, context, callback)` unchanged |
| `Veneer.HandlerKey` | src/veneer.ts:27-30 | The key `module[handlerName]` uses: the handler name, or "undefined" when the descriptor has no second segment |
| `Veneer.HandlerModulePath` | src/veneer.ts:29 | The path given to `require`: a module name without a dot, followed by `.js` |
| `Veneer.Member` | src/veneer.ts:55 | `module[name]`, undefined for a missing export; no contract of its own |
| `Veneer.WrapHandler` | src/veneer.ts:30-31 | The export named by the handler name (key "undefined" when absent) becomes the wrapper around its old value; every other export is kept |
| `Veneer.WrapRequest` | src/veneer.ts:55-56 | `module[name]` becomes a request wrapper around its old value; `WrapRequestsEffect` states the result |
| `Veneer.WrapRequests` | src/veneer.ts:54-63 | The exports after wrapping each name in turn, in order; `WrapRequestsEffect` states the result |
| `Veneer.WrapRequestsEffect` | src/veneer.ts:54-63 | Wrapping distinct names once each turns every named export into a wrapper around its old value. Every other export is kept, and the key set gains the names |
| `Veneer.WrapRequestMethods` | src/veneer.ts:53-64 | Each of the distinct modules ends with `request` and then `get` wrapped around their old values |
| `Veneer.Setup` | src/veneer.ts:16-65 | The set-up hooks the HTTPS and then the HTTP global agent, wraps the handler export when the module that `require` gives for `HandlerModulePath` loaded, and wraps `request`/`get` of `http` and `https`. It returns the defaulted function name and the split descriptor |

## Left out

- The weighted selection, the behaviour cache, its refresh and the provisioning of new hosts (`selectWeighted`, `cachedBehaviours`, `refreshBehaviours`, `behaviour`) are not part of this model. Their code is not among the source files; src/behaviours.ts holds only a type and one constant entry. The lookup is a function parameter.
- src/fakesocket.ts is not part of this model. The fabricated connection is observed only through the ordered chunks written to its server end before it is ended. Stream errors and `destroy` are not modelled.
- `InterceptedSocket` (src/socket.ts) copies bound methods from Node streams by reflection. Its behaviour is that of library streams, so it is not modelled.
- Timers, Promises and `await`: delays are recorded as numbers of milliseconds. Waiting on the initial refresh (`await init`, src/veneer.ts:21,32) is not modelled.
- `console.log` output is not modelled. The port is used only there, so it is carried but never read.
- `require`, `process.env` and the handler's own code are parameters or recorded calls (`Call`). So are the original `request`/`get` and the original `createConnection`. The try/catch around loading the handler is the null-module case of `Setup`.
- `Veneer.CallRequestWrapper` and `Veneer.HookTarget`: a truthy `agent` option that is not an `Agent` (a plain object, a number, a string) reaches `hookAgent` in the source. There it is flagged or, for a primitive, may throw; the model forwards such calls without hooking anything.
- `Veneer.Property`: only plain objects carry properties; `?.agent` on strings, numbers, functions and agents is undefined.
- Latency values are non-negative integers. Fractional, negative and non-numeric `ms` and `latencyMs` values are not modelled, nor are fractional and non-numeric `statusCode` values.
- `Text.IntToDecimal` and `Text.IntDecimalRoundTrip` treat status codes as unbounded integers. A JavaScript number is a double, so `${n}` matches the model only for integers below 10^21 in magnitude that are exactly representable; larger values are written with an exponent (`1e+21`).
- `AgentHook.PeerReadsFabricatedResponse` and `AgentHook.HeadRoundTrip` use a reader of one message that does not know the request method. The fabricated response answers whatever request the client wrote, so a response to HEAD (which never has a body) and a 2xx answer to CONNECT (which opens a tunnel) are not modelled. Neither is the interim meaning of 1xx (section 15.2 of RFC 9110): a client reads the bytes after a 1xx head as the next status line, while the reader takes the 1xx head as the whole response.
- `AgentHook.HeadRoundTrip` and `AgentHook.PeerReadsFabricatedResponse` require the reason phrase and the content type to hold no carriage return. The code writes them unchecked, so a content type holding CR LF would add header lines.
- `AgentHook.HeadRoundTrip` and `AgentHook.PeerReadsFabricatedResponse` read the content type back exactly as written, up to the first CR. An HTTP/1.1 client does not always do so. It drops leading and trailing spaces and tabs from a field value (section 5.1 of RFC 9112), so `" text/html "` reads as `text/html`. It may also take a bare LF as the end of a line (section 2.2 of RFC 9112), so a content type holding LF can add a header line or make the response rejected. Neither is modelled.
- A timer that fires after its socket was destroyed is not modelled; the code has no check for it.
