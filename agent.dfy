/** Connection interception on an HTTP agent (src/agent.ts).

    `hookAgent` replaces an agent's `createConnection` by an intercepting
    one, at most once, guarded by the agent's `__veneer__` flag. Each call of
    the intercepting `createConnection` looks up the behaviour of the target
    host and either fabricates a response on an in-memory socket pair or
    passes through to the original `createConnection`, pausing the real
    socket for the injected latency.

    Time is not modelled: a timer is recorded as the number of milliseconds
    it waits. The fabricated socket pair is observed only through the chunks
    written to its server end, in order, before that end is closed. */
module AgentHook {
  import opened Wrappers
  import opened Text

  // ---------------------------------------------------------------------
  // Behaviour looked up for a host

  datatype Latency = Latency(ms: nat)

  /** A response to fabricate; every field may be left out. */
  datatype Response = Response(statusCode: Option<int>, contentType: Option<string>, body: Option<string>)

  datatype Behaviour = Behaviour(latency: Option<Latency>, response: Option<Response>)

  /** The `{ host, port }` part of the connection options. */
  datatype ConnectOptions = ConnectOptions(host: string, port: string)

  /** Node's `http.STATUS_CODES`: reason phrase by status code. */
  type StatusTable = map<int, string>

  const DefaultStatusCode := 200
  const DefaultContentType := "text/plain"
  const UnknownReason := "ERROR"

  /** `latency.ms`, where a missing `latency` defaults to `{ ms: 0 }`. */
  function DelayMs(b: Behaviour): (ms: nat)
    ensures b.latency.None? ==> ms == 0
    ensures b.latency.Some? ==> ms == b.latency.value.ms
  {
    b.latency.GetOr(Latency(0)).ms
  }

  /** `response.statusCode || 200`. */
  function StatusCode(r: Response): (code: int)
    ensures code != 0
    ensures code == DefaultStatusCode <==> r.statusCode in {None, Some(0), Some(DefaultStatusCode)}
    ensures code != DefaultStatusCode ==> r.statusCode == Some(code)
  {
    if r.statusCode.Some? && r.statusCode.value != 0 then r.statusCode.value else DefaultStatusCode
  }

  /** `STATUS_CODES[code] || 'ERROR'`. */
  function ReasonPhrase(table: StatusTable, code: int): (reason: string)
    ensures reason != ""
    ensures reason == UnknownReason <==> code !in table || table[code] in {"", UnknownReason}
    ensures reason != UnknownReason ==> code in table && table[code] == reason
  {
    if code in table && table[code] != "" then table[code] else UnknownReason
  }

  /** `response.contentType || 'text/plain'`. */
  function ContentType(r: Response): (ct: string)
    ensures ct != ""
    ensures r.contentType.Some? && r.contentType.value != "" ==> ct == r.contentType.value
    ensures r.contentType in {None, Some("")} ==> ct == DefaultContentType
  {
    if r.contentType.Some? && r.contentType.value != "" then r.contentType.value else DefaultContentType
  }

  /** The pieces of the head: the status line up to the code, the end of the
      status line with the start of the one header field, and the end of that
      field with the empty line. */
  const StatusLinePrefix := "HTTP/1.1 "
  const ContentTypePrefix := "\r\nContent-Type: "
  const HeadEnd := "\r\n\r\n"

  /** The text the server end receives before the body: the status line and
      one header field, each ended by CRLF, then the empty line. The code is
      written as its decimal text whatever its value. No Content-Length is
      written, so a body runs to the end of the stream. */
  function Head(code: int, reason: string, contentType: string): (h: string)
    ensures StatusLinePrefix <= h
  {
    StatusLinePrefix + IntToDecimal(code) + " " + reason + ContentTypePrefix + contentType + HeadEnd
  }

  /** The head for a response: its defaulted code, the table's reason phrase
      for that code (or "ERROR") and its defaulted content type. */
  function ResponseHead(r: Response, table: StatusTable): string {
    var code := StatusCode(r);
    Head(code, ReasonPhrase(table, code), ContentType(r))
  }

  /** The chunks written to the server end: `server.write(head)`, then
      `server.end(body)`, where `end` writes its argument only when given. */
  function ServerWrites(r: Response, table: StatusTable): (writes: seq<string>)
    ensures |writes| == if r.body.Some? then 2 else 1
    ensures writes[0] == ResponseHead(r, table)
    ensures r.body.Some? ==> writes[1] == r.body.value
  {
    [ResponseHead(r, table)] + (if r.body.Some? then [r.body.value] else [])
  }

  /** What the peer of the server end reads: the chunks in write order. */
  function Delivered(writes: seq<string>): string {
    if writes == [] then "" else writes[0] + Delivered(writes[1..])
  }

  // ---------------------------------------------------------------------
  // A reader of responses of the form the fabricator writes

  datatype ParsedResponse = ParsedResponse(statusCode: int, reason: string, contentType: string, body: string)

  /** Responses that end at the empty line after their header fields and
      never carry a body: 1xx, 204 and 304 (section 6.3 of RFC 9112). */
  predicate Bodyless(code: int) {
    100 <= code <= 199 || code == 204 || code == 304
  }

  /** Reads one response of the form the fabricator writes: a status line
      `HTTP/1.1 <code> <reason>` whose code is exactly three digits (section
      4 of RFC 9112), one Content-Type field and an empty line. The body is
      everything after that, as the message has no Content-Length, except
      for a code that never carries a body (section 6.3 of RFC 9112), whose
      message ends at the empty line. The reader does not know the request
      method, and takes a 1xx head as the whole response rather than as an
      interim one. */
  function ParseResponse(text: string): Option<ParsedResponse> {
    if StatusLinePrefix <= text then ParseStatus(text[|StatusLinePrefix|..]) else None
  }

  /** The status code runs up to the first space and is three digits. */
  function ParseStatus(line: string): Option<ParsedResponse> {
    if ' ' !in line then None
    else
      var sp := IndexOf(line, ' ');
      var digits := line[..sp];
      if |digits| == 3 && AllDigits(digits) then ParseReason(DigitsValue(digits), line[sp + 1..]) else None
  }

  /** The reason phrase runs up to the first carriage return. */
  function ParseReason(code: int, rest: string): Option<ParsedResponse> {
    if '\r' !in rest then None
    else
      var cr := IndexOf(rest, '\r');
      ParseFields(code, rest[..cr], rest[cr..])
  }

  /** The Content-Type field, whose value runs up to the first carriage
      return. */
  function ParseFields(code: int, reason: string, fields: string): Option<ParsedResponse> {
    if !(ContentTypePrefix <= fields) then None
    else
      var value := fields[|ContentTypePrefix|..];
      if '\r' !in value then None
      else
        var cr := IndexOf(value, '\r');
        ParseBody(code, reason, value[..cr], value[cr..])
  }

  /** The end of the field and the empty line, then the body. */
  function ParseBody(code: int, reason: string, contentType: string, tail: string): Option<ParsedResponse> {
    if !(HeadEnd <= tail) then None
    else Some(ParsedResponse(code, reason, contentType, if Bodyless(code) then "" else tail[|HeadEnd|..]))
  }

  /** Splitting at the first `c` of `p + [c] + rest`, when `p` holds no `c`. */
  lemma FirstAfterPrefix(p: string, c: char, rest: string)
    requires c !in p
    ensures c in p + [c] + rest
    ensures IndexOf(p + [c] + rest, c) == |p|
  {
    assert (p + [c] + rest)[|p|] == c;
  }

  lemma ParseFieldsRoundTrip(code: int, reason: string, contentType: string, body: string)
    requires '\r' !in contentType
    ensures ParseFields(code, reason, ContentTypePrefix + contentType + HeadEnd + body)
            == Some(ParsedResponse(code, reason, contentType, if Bodyless(code) then "" else body))
  {
    var fields := ContentTypePrefix + contentType + HeadEnd + body;
    var value := fields[|ContentTypePrefix|..];
    assert value == contentType + ['\r'] + ("\n\r\n" + body);
    FirstAfterPrefix(contentType, '\r', "\n\r\n" + body);
    assert value[..|contentType|] == contentType;
    assert value[|contentType|..] == HeadEnd + body;
    ParseBodyRoundTrip(code, reason, contentType, body);
  }

  lemma ParseBodyRoundTrip(code: int, reason: string, contentType: string, body: string)
    ensures ParseBody(code, reason, contentType, HeadEnd + body)
            == Some(ParsedResponse(code, reason, contentType, if Bodyless(code) then "" else body))
  {
    assert (HeadEnd + body)[|HeadEnd|..] == body;
  }

  lemma ParseReasonRoundTrip(code: int, reason: string, contentType: string, body: string)
    requires '\r' !in reason && '\r' !in contentType
    ensures ParseReason(code, reason + ContentTypePrefix + contentType + HeadEnd + body)
            == Some(ParsedResponse(code, reason, contentType, if Bodyless(code) then "" else body))
  {
    var fields := ContentTypePrefix + contentType + HeadEnd + body;
    var rest := reason + fields;
    assert reason + ContentTypePrefix + contentType + HeadEnd + body == rest;
    assert rest == reason + ['\r'] + fields[1..];
    FirstAfterPrefix(reason, '\r', fields[1..]);
    assert rest[..|reason|] == reason;
    assert rest[|reason|..] == fields;
    ParseFieldsRoundTrip(code, reason, contentType, body);
  }

  lemma ParseStatusRoundTrip(code: int, afterCode: string)
    requires 100 <= code <= 999
    ensures ParseStatus(IntToDecimal(code) + [' '] + afterCode) == ParseReason(code, afterCode)
  {
    var digits := IntToDecimal(code);
    var line := digits + [' '] + afterCode;
    FirstAfterPrefix(digits, ' ', afterCode);
    assert line[..|digits|] == digits;
    ThreeDigitCodes(code);
    NatDecimalRoundTrip(code);
    assert line[|digits| + 1..] == afterCode;
  }

  lemma ParseStatusRejects(code: int, afterCode: string)
    requires !(100 <= code <= 999)
    ensures ParseStatus(IntToDecimal(code) + [' '] + afterCode) == None
  {
    var digits := IntToDecimal(code);
    var line := digits + [' '] + afterCode;
    FirstAfterPrefix(digits, ' ', afterCode);
    assert line[..|digits|] == digits;
    ThreeDigitCodes(code);
  }

  /** A head written for a code from 100 to 999, followed by any body, reads
      back as the status code, reason phrase and content type it was built
      from, as long as the reason and the content type hold no carriage
      return. The body reads back too, except after a bodyless code, where
      the message ends with the head and the body is not part of it. */
  lemma HeadRoundTrip(code: int, reason: string, contentType: string, body: string)
    requires 100 <= code <= 999
    requires '\r' !in reason && '\r' !in contentType
    ensures ParseResponse(Head(code, reason, contentType) + body)
            == Some(ParsedResponse(code, reason, contentType, if Bodyless(code) then "" else body))
  {
    var afterCode := reason + ContentTypePrefix + contentType + HeadEnd + body;
    var line := IntToDecimal(code) + [' '] + afterCode;
    HeadLayout(code, reason, contentType, body);
    StatusLinePrefixStripped(line);
    ParseReasonRoundTrip(code, reason, contentType, body);
    ParseStatusRoundTrip(code, afterCode);
  }

  /** A head written for any other code (negative, below 100, or 1000 and
      above) is not a valid status line, whatever follows it. */
  lemma HeadUnreadable(code: int, reason: string, contentType: string, body: string)
    requires !(100 <= code <= 999)
    ensures ParseResponse(Head(code, reason, contentType) + body) == None
  {
    var afterCode := reason + ContentTypePrefix + contentType + HeadEnd + body;
    var line := IntToDecimal(code) + [' '] + afterCode;
    HeadLayout(code, reason, contentType, body);
    StatusLinePrefixStripped(line);
    ParseStatusRejects(code, afterCode);
  }

  lemma HeadLayout(code: int, reason: string, contentType: string, body: string)
    ensures Head(code, reason, contentType) + body
            == StatusLinePrefix + (IntToDecimal(code) + [' '] + (reason + ContentTypePrefix + contentType + HeadEnd + body))
  {
    var digits := IntToDecimal(code);
    var fields := reason + ContentTypePrefix + contentType + HeadEnd;
    Regroup(reason + ContentTypePrefix, contentType, HeadEnd);
    Regroup(reason, ContentTypePrefix, contentType);
    assert Head(code, reason, contentType) == StatusLinePrefix + digits + " " + fields;
    Regroup(StatusLinePrefix + digits + " ", fields, body);
    Regroup(StatusLinePrefix + digits, " ", fields + body);
    Regroup(StatusLinePrefix, digits, " " + (fields + body));
    Regroup(digits, " ", fields + body);
  }

  lemma Regroup(a: string, b: string, c: string)
    ensures a + b + c == a + (b + c)
  {
  }

  lemma StatusLinePrefixStripped(line: string)
    ensures ParseResponse(StatusLinePrefix + line) == ParseStatus(line)
  {
    assert (StatusLinePrefix + line)[|StatusLinePrefix|..] == line;
  }

  lemma {:induction false} DeliveredConcat(a: seq<string>, b: seq<string>)
    ensures Delivered(a + b) == Delivered(a) + Delivered(b)
  {
    if a == [] {
      assert a + b == b;
    } else {
      calc {
        Delivered(a + b);
        (a + b)[0] + Delivered((a + b)[1..]);
        { assert (a + b)[1..] == a[1..] + b; }
        a[0] + Delivered(a[1..] + b);
        { DeliveredConcat(a[1..], b); }
        a[0] + (Delivered(a[1..]) + Delivered(b));
      }
    }
  }

  // ---------------------------------------------------------------------
  // The agent and its createConnection

  /** The value of an agent's `createConnection` field: the agent's own
      function, or the intercepting closure around an earlier value. */
  datatype Connector = Original | Intercepting(original: Connector)

  /** How many intercepting closures are stacked on the agent's own one. */
  function Layers(c: Connector): nat {
    match c
    case Original => 0
    case Intercepting(inner) => 1 + Layers(inner)
  }

  /** A real socket, observed through whether its flow is paused. */
  class Socket {
    var paused: bool

    constructor ()
      ensures !paused
    {
      paused := false;
    }

    method Pause()
      modifies this`paused
      ensures paused
    {
      paused := true;
    }

    /** What the latency timer does when it fires. */
    method Resume()
      modifies this`paused
      ensures !paused
    {
      paused := false;
    }
  }

  /** What `createConnection` hands back. A fabricated connection is the
      client end of a fresh socket pair; its server end receives `writes`
      and is then ended, once `delayMs` have passed. A real connection is the
      socket the original `createConnection` opened for `options`, with the
      delays after which timers resume it. */
  datatype Connection =
    | Fabricated(delayMs: nat, writes: seq<string>)
    | Real(socket: Socket, options: ConnectOptions, resumeAfter: seq<nat>)

  /** The resume timers the stacked closures schedule on pass-through,
      innermost first: each closure pauses the socket when the delay is not
      zero. */
  function ResumeDelays(c: Connector, b: Behaviour): (delays: seq<nat>)
    ensures |delays| <= Layers(c)
    ensures DelayMs(b) == 0 ==> delays == []
  {
    match c
    case Original => []
    case Intercepting(inner) => ResumeDelays(inner, b) + (if DelayMs(b) != 0 then [DelayMs(b)] else [])
  }

  /** The connection that calling `c` on `options` produces when the host's
      behaviour is `b`, where `socket` is the one the agent's own function
      opens. */
  function Outcome(c: Connector, options: ConnectOptions, b: Behaviour, table: StatusTable, socket: Socket): (conn: Connection)
    ensures conn.Fabricated? <==> c.Intercepting? && b.response.Some?
    ensures conn.Real? ==> conn.socket == socket && conn.options == options
    ensures conn.Real? ==> |conn.resumeAfter| <= Layers(c)
  {
    if c.Intercepting? && b.response.Some? then Fabricated(DelayMs(b), ServerWrites(b.response.value, table))
    else Real(socket, options, ResumeDelays(c, b))
  }

  /** Stacked closures multiply the latency: each one schedules its own
      resume timer, which is why the agent must be hooked only once. */
  lemma {:induction false} ResumeDelaysCount(c: Connector, b: Behaviour)
    ensures |ResumeDelays(c, b)| == if DelayMs(b) != 0 then Layers(c) else 0
    ensures forall i :: 0 <= i < |ResumeDelays(c, b)| ==> ResumeDelays(c, b)[i] == DelayMs(b)
  {
    match c
    case Original =>
    case Intercepting(inner) => ResumeDelaysCount(inner, b);
  }

  /** The new value of `(createConnection, __veneer__)` after `hookAgent`. */
  function Hook(c: Connector, veneer: bool): (r: (Connector, bool))
    ensures r.1
    ensures Layers(r.0) == if veneer then Layers(c) else Layers(c) + 1
  {
    if veneer then (c, veneer) else (Intercepting(c), true)
  }

  lemma HookIdempotent(c: Connector, veneer: bool)
    ensures Hook(Hook(c, veneer).0, Hook(c, veneer).1) == Hook(c, veneer)
  {
  }

  class Agent {
    var createConnection: Connector
    /** The `__veneer__` flag. */
    var veneer: bool

    /** The agent carries exactly one intercepting closure iff it is flagged. */
    ghost predicate Valid()
      reads this
    {
      Layers(createConnection) == if veneer then 1 else 0
    }

    constructor ()
      ensures Valid() && createConnection == Original && !veneer
    {
      createConnection := Original;
      veneer := false;
    }

    /** `agent.createConnection(options)`. An unhooked agent opens the real
        socket; a hooked one fabricates when the host's behaviour has a
        response and otherwise hands back the real socket under one resume
        timer when `latency.ms` is not zero. */
    method CreateConnection(options: ConnectOptions, behaviour: string -> Behaviour, table: StatusTable, socket: Socket)
      returns (conn: Connection)
      requires Valid()
      modifies socket
      ensures conn == Outcome(createConnection, options, behaviour(options.host), table, socket)
      ensures !veneer ==> conn == Real(socket, options, [])
      ensures veneer ==> (conn.Fabricated? <==> behaviour(options.host).response.Some?)
      ensures veneer && conn.Fabricated? ==>
                var b := behaviour(options.host);
                conn == Fabricated(DelayMs(b), ServerWrites(b.response.value, table))
      ensures veneer && conn.Real? ==>
                var ms := DelayMs(behaviour(options.host));
                conn == Real(socket, options, if ms != 0 then [ms] else [])
      ensures conn.Fabricated? ==> unchanged(socket)
      ensures conn.Real? ==> socket.paused == (old(socket.paused) || conn.resumeAfter != [])
    {
      conn := Connect(createConnection, options, behaviour, table, socket);
      if veneer {
        HookedDecision(createConnection, options, behaviour(options.host), table, socket);
      } else {
        UnhookedPassesThrough(createConnection, options, behaviour(options.host), table, socket);
      }
    }
  }

  /** Runs the connector `c` on `options`: an intercepting closure looks up
      the host's behaviour and fabricates when a response is given, and
      otherwise calls the function it wraps and pauses the socket that comes
      back when the latency is not zero. */
  method Connect(c: Connector, options: ConnectOptions, behaviour: string -> Behaviour, table: StatusTable, socket: Socket)
    returns (conn: Connection)
    modifies socket
    ensures conn == Outcome(c, options, behaviour(options.host), table, socket)
    ensures conn.Fabricated? ==> unchanged(socket)
    ensures conn.Real? ==> socket.paused == (old(socket.paused) || conn.resumeAfter != [])
    decreases c
  {
    match c
    case Original =>
      conn := Real(socket, options, []);
    case Intercepting(original) =>
      var b := behaviour(options.host);
      var ms := DelayMs(b);
      if b.response.Some? {
        conn := Fabricated(ms, ServerWrites(b.response.value, table));
      } else {
        var inner := Connect(original, options, behaviour, table, socket);
        if ms != 0 {
          socket.Pause();
        }
        conn := Real(socket, options, inner.resumeAfter + (if ms != 0 then [ms] else []));
      }
  }

  /** The resume timers of a real connection fire, each one calling
      `socket.resume()`: afterwards the socket flows again if any timer was
      scheduled, and is left as it was if none was. */
  method FireResumeTimers(conn: Connection)
    requires conn.Real?
    modifies conn.socket
    ensures conn.resumeAfter != [] ==> !conn.socket.paused
    ensures conn.resumeAfter == [] ==> unchanged(conn.socket)
  {
    for i := 0 to |conn.resumeAfter|
      invariant i == 0 ==> unchanged(conn.socket)
      invariant i > 0 ==> !conn.socket.paused
    {
      conn.socket.Resume();
    }
  }

  /** `hookAgent(agent)`: nothing happens for a missing agent or one already
      flagged; otherwise `createConnection` is wrapped and the flag set. */
  method HookAgent(agent: Agent?)
    modifies agent
    ensures agent != null ==> (agent.createConnection, agent.veneer) == Hook(old(agent.createConnection), old(agent.veneer))
    ensures agent != null && old(agent.veneer) ==> unchanged(agent)
    ensures agent != null && old(agent.Valid()) ==> agent.Valid()
  {
    if agent == null || agent.veneer {
      return;
    }
    agent.createConnection := Intercepting(agent.createConnection);
    agent.veneer := true;
  }

  // ---------------------------------------------------------------------
  // Properties of the decision

  /** An agent that was never hooked hands back the real socket, untouched. */
  lemma UnhookedPassesThrough(c: Connector, options: ConnectOptions, b: Behaviour, table: StatusTable, socket: Socket)
    requires Layers(c) == 0
    ensures Outcome(c, options, b, table, socket) == Real(socket, options, [])
  {
  }

  /** On a hooked agent the fabricate path is taken iff the behaviour gives a
      response; otherwise the real socket is returned with one resume timer
      of `latency.ms` when that is not zero and none when it is. */
  lemma {:induction false} HookedDecision(c: Connector, options: ConnectOptions, b: Behaviour, table: StatusTable, socket: Socket)
    requires Layers(c) == 1
    ensures Outcome(c, options, b, table, socket).Fabricated? <==> b.response.Some?
    ensures b.response.Some? ==>
              Outcome(c, options, b, table, socket) == Fabricated(DelayMs(b), ServerWrites(b.response.value, table))
    ensures b.response.None? ==>
              Outcome(c, options, b, table, socket) == Real(socket, options, if DelayMs(b) != 0 then [DelayMs(b)] else [])
  {
    match c
    case Intercepting(inner) =>
      assert inner == Original by {
        match inner
        case Original =>
        case Intercepting(_) =>
      }
      assert ResumeDelays(inner, b) == [];
  }

  /** A fresh agent hooked twice carries one intercepting closure, so a
      behaviour of `{ latency: { ms } }` alone hands back the real socket,
      opened with the same options, under a single resume timer of `ms`. */
  lemma LatencyOnlyAfterDoubleHook(options: ConnectOptions, ms: nat, table: StatusTable, socket: Socket)
    requires ms != 0
    ensures var once := Hook(Original, false);
            var twice := Hook(once.0, once.1);
            Outcome(twice.0, options, Behaviour(Some(Latency(ms)), None), table, socket) == Real(socket, options, [ms])
  {
  }

  /** The peer of the fabricated server end reads the head and then the body
      (nothing when no body is given). It can parse them exactly when the
      status code (the given one unless absent or 0, else 200) is from 100 to
      999, and then reads back that code, the reason phrase from the table
      (else "ERROR"), the content type (else "text/plain") and the body,
      which is dropped after a bodyless code. */
  lemma PeerReadsFabricatedResponse(r: Response, table: StatusTable)
    requires forall code :: code in table ==> '\r' !in table[code]
    requires r.contentType.Some? ==> '\r' !in r.contentType.value
    ensures Delivered(ServerWrites(r, table)) == ResponseHead(r, table) + r.body.GetOr("")
    ensures ParseResponse(Delivered(ServerWrites(r, table))).Some? <==> 100 <= StatusCode(r) <= 999
    ensures 100 <= StatusCode(r) <= 999 ==>
              ParseResponse(Delivered(ServerWrites(r, table)))
              == Some(ParsedResponse(StatusCode(r), ReasonPhrase(table, StatusCode(r)), ContentType(r),
                                     if Bodyless(StatusCode(r)) then "" else r.body.GetOr("")))
  {
    DeliveredServerWrites(r, table);
    var code := StatusCode(r);
    var reason := ReasonPhrase(table, code);
    if 100 <= code <= 999 {
      assert '\r' !in reason;
      HeadRoundTrip(code, reason, ContentType(r), r.body.GetOr(""));
    } else {
      HeadUnreadable(code, reason, ContentType(r), r.body.GetOr(""));
    }
  }

  lemma DeliveredServerWrites(r: Response, table: StatusTable)
    ensures Delivered(ServerWrites(r, table)) == ResponseHead(r, table) + r.body.GetOr("")
  {
    var head := ResponseHead(r, table);
    if r.body.Some? {
      assert ServerWrites(r, table) == [head] + [r.body.value];
      DeliveredConcat([head], [r.body.value]);
      assert Delivered([r.body.value]) == r.body.value + Delivered([]);
    } else {
      assert ServerWrites(r, table) == [head];
      assert Delivered([head]) == head + Delivered([]);
    }
  }

  lemma Decimal404()
    ensures IntToDecimal(404) == "404"
  {
    assert NatToDecimal(4) == "4";
    assert NatToDecimal(40) == NatToDecimal(4) + ['0'];
    assert NatToDecimal(404) == NatToDecimal(40) + ['4'];
  }

  /** The head of a 404 response with reason "Not Found" and the default
      content type, written out. */
  lemma NotFoundHead()
    ensures Head(404, "Not Found", DefaultContentType)
            == "HTTP/1.1 404 Not Found\r\nContent-Type: text/plain\r\n\r\n"
  {
    Decimal404();
    var line := StatusLinePrefix + "404" + " " + "Not Found";
    assert line == "HTTP/1.1 404 Not Found";
    var field := line + ContentTypePrefix + DefaultContentType;
    assert field == "HTTP/1.1 404 Not Found\r\nContent-Type: text/plain";
  }

  /** A behaviour of `{ response: { statusCode: 404, body: 'Not Found' },
      latency: { ms: 200 } }` on a hooked agent: after 200 ms the server end
      receives the 404 head with the default content type, then the body. */
  lemma NotFoundAfterLatency(options: ConnectOptions, table: StatusTable, socket: Socket)
    requires 404 in table && table[404] == "Not Found"
    ensures Outcome(Intercepting(Original), options,
                    Behaviour(Some(Latency(200)), Some(Response(Some(404), None, Some("Not Found")))),
                    table, socket)
            == Fabricated(200, ["HTTP/1.1 404 Not Found\r\nContent-Type: text/plain\r\n\r\n", "Not Found"])
  {
    var r := Response(Some(404), None, Some("Not Found"));
    assert ResponseHead(r, table) == Head(404, "Not Found", DefaultContentType);
    NotFoundHead();
  }
}
